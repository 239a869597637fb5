/** The string primitives the pages rely on, written out over `seq<char>`:
    the JavaScript white-space class (used by `\s` in regular expressions and by
    `String.prototype.trim`), `trim`, ASCII case mapping, replacement of each run of a
    character class by one character, and the `formatLabel` helper of the home pages. */
module Text {

  /** ECMAScript WhiteSpace and LineTerminator code points: exactly what `\s` matches
      and what `trim` strips. */
  predicate IsSpace(c: char) {
    || '\t' <= c <= '\r'                        // tab, line feed, line and form feed, return
    || c == ' ' || c == '\U{00A0}' || c == '\U{1680}'
    || '\U{2000}' <= c <= '\U{200A}'            // en quad .. hair space
    || c == '\U{2028}' || c == '\U{2029}'       // line and paragraph separator
    || c == '\U{202F}' || c == '\U{205F}' || c == '\U{3000}'
    || c == '\U{FEFF}'                          // byte order mark
  }

  predicate IsHyphen(c: char) {
    c == '-'
  }

  /** A string that `trim` turns into the empty, falsy string. */
  predicate IsBlank(s: string) {
    forall i :: 0 <= i < |s| ==> IsSpace(s[i])
  }

  /** `s` without the white space at its front. */
  function TrimStart(s: string): string {
    if s != [] && IsSpace(s[0]) then TrimStart(s[1..]) else s
  }

  lemma {:induction false} TrimStartDrops(s: string)
    ensures var r := TrimStart(s);
            |r| <= |s| && r == s[|s| - |r|..] && (r == [] || !IsSpace(r[0]))
            && forall i :: 0 <= i < |s| - |r| ==> IsSpace(s[i])
  {
    if s != [] && IsSpace(s[0]) {
      var r := TrimStart(s[1..]);
      TrimStartDrops(s[1..]);
      assert s[1..][|s| - 1 - |r|..] == s[|s| - |r|..];
      forall i | 0 < i < |s| - |r| ensures IsSpace(s[i]) {
        assert s[i] == s[1..][i - 1];
      }
    }
  }

  /** `s` without the white space at its back. */
  function TrimEnd(s: string): string {
    if s != [] && IsSpace(s[|s| - 1]) then TrimEnd(s[..|s| - 1]) else s
  }

  lemma {:induction false} TrimEndDrops(s: string)
    ensures var r := TrimEnd(s);
            |r| <= |s| && r == s[..|r|] && (r == [] || !IsSpace(r[|r| - 1]))
            && forall i :: |r| <= i < |s| ==> IsSpace(s[i])
  {
    if s != [] && IsSpace(s[|s| - 1]) {
      var r := TrimEnd(s[..|s| - 1]);
      TrimEndDrops(s[..|s| - 1]);
      assert s[..|s| - 1][..|r|] == s[..|r|];
      forall i | |r| <= i < |s| - 1 ensures IsSpace(s[i]) {
        assert s[i] == s[..|s| - 1][i];
      }
    }
  }

  /** `r` is `s` with the white space `s[..a]` in front of it and white space behind it. */
  predicate TrimmedAt(s: string, a: nat, r: string) {
    && a + |r| <= |s| && r == s[a..a + |r|]
    && IsBlank(s[..a]) && IsBlank(s[a + |r|..])
  }

  /** `s.trim()`: drops the white space at both ends; the result neither starts nor ends
      with white space and is empty exactly for a blank value (TrimIsInfix places it in `s`). */
  function Trim(s: string): (r: string)
    ensures |r| <= |s|
    ensures r == [] || (!IsSpace(r[0]) && !IsSpace(r[|r| - 1]))
    ensures r == [] <==> IsBlank(s)
  {
    var t := TrimStart(s);
    var r := TrimEnd(t);
    TrimStartDrops(s);
    TrimEndDrops(t);
    if r == [] then
      assert t == [];
      r
    else
      assert !IsSpace(s[|s| - |t|]);
      r
  }

  /** The trim of `s` is the infix of `s` left between white space at its front and back. */
  lemma TrimIsInfix(s: string)
    ensures exists a :: TrimmedAt(s, a, Trim(s))
  {
    var t := TrimStart(s);
    var r := TrimEnd(t);
    TrimStartDrops(s);
    TrimEndDrops(t);
    assert Trim(s) == r;
    assert r == s[|s| - |t|..|s| - |t| + |r|];
    assert TrimmedAt(s, |s| - |t|, r);
  }

  /** No white space anywhere. */
  predicate NoSpace(s: string) {
    forall k :: 0 <= k < |s| ==> !IsSpace(s[k])
  }

  /** A value without white space is its own trim. */
  lemma TrimNoSpace(s: string)
    requires NoSpace(s)
    ensures Trim(s) == s
  {
    if s != [] {
      assert !IsSpace(s[0]) && !IsSpace(s[|s| - 1]);
    }
  }

  /** Text that neither starts nor ends with white space is its own trim. */
  lemma TrimUnpadded(s: string)
    requires s != [] && !IsSpace(s[0]) && !IsSpace(s[|s| - 1])
    ensures Trim(s) == s
  {
    assert TrimStart(s) == s;
  }

  /** Lower-casing works character by character, so it distributes over concatenation. */
  lemma ToLowerAppend(a: string, b: string)
    ensures ToLower(a + b) == ToLower(a) + ToLower(b)
  {
    var l, r := ToLower(a + b), ToLower(a) + ToLower(b);
    assert |l| == |r|;
    forall i | 0 <= i < |l| ensures l[i] == r[i] {
      if i < |a| {
        assert (a + b)[i] == a[i];
      } else {
        assert (a + b)[i] == b[i - |a|];
      }
    }
  }

  lemma {:induction false} TrimIdempotent(s: string)
    ensures Trim(Trim(s)) == Trim(s)
  {
    var r := Trim(s);
    assert TrimStart(r) == r;
    assert TrimEnd(r) == r;
  }

  function LowerChar(c: char): (d: char)
    ensures 'A' <= c <= 'Z' ==> d as int == c as int + 32
    ensures !('A' <= c <= 'Z') ==> d == c
  {
    if 'A' <= c <= 'Z' then (c as int + 32) as char else c
  }

  function UpperChar(c: char): (d: char)
    ensures 'a' <= c <= 'z' ==> d as int == c as int - 32
    ensures !('a' <= c <= 'z') ==> d == c
  {
    if 'a' <= c <= 'z' then (c as int - 32) as char else c
  }

  /** `s.toLowerCase()`, restricted to the ASCII letters. */
  function ToLower(s: string): (r: string)
    ensures |r| == |s|
    ensures forall i :: 0 <= i < |s| ==> r[i] == LowerChar(s[i])
  {
    if s == [] then [] else [LowerChar(s[0])] + ToLower(s[1..])
  }

  lemma ToLowerIdempotent(s: string)
    ensures ToLower(ToLower(s)) == ToLower(s)
  {
  }

  /** Drops the run of `inRun` characters at the front of `s`. */
  function DropRun(s: string, inRun: char -> bool): (r: string)
    ensures |r| <= |s|
  {
    if s != [] && inRun(s[0]) then DropRun(s[1..], inRun) else s
  }

  /** What is left after the run is a suffix of `s` that does not start inside the class. */
  lemma {:induction false} DropRunSuffix(s: string, inRun: char -> bool)
    ensures var r := DropRun(s, inRun);
            r == s[|s| - |r|..] && (r == [] || !inRun(r[0]))
  {
    if s != [] && inRun(s[0]) {
      DropRunSuffix(s[1..], inRun);
      var r := DropRun(s[1..], inRun);
      assert s[1..][|s| - 1 - |r|..] == s[|s| - |r|..];
    }
  }

  /** `s.replace(/X+/g, with)`: each maximal run of characters of the class `inRun`
      becomes the single character `with`; every other character is kept in order
      (ReplaceRunsAround and ReplaceRunsOfRun pin the result down). */
  function ReplaceRuns(s: string, inRun: char -> bool, with: char): (r: string)
    ensures |r| <= |s|
    ensures s != [] ==> r != []
    decreases |s|
  {
    if s == [] then []
    else if inRun(s[0]) then [with] + ReplaceRuns(DropRun(s, inRun), inRun, with)
    else [s[0]] + ReplaceRuns(s[1..], inRun, with)
  }

  /** A character outside the class at the front is kept as it is. */
  lemma ReplaceRunsKeepHead(c: char, t: string, inRun: char -> bool, with: char)
    requires !inRun(c)
    ensures ReplaceRuns([c] + t, inRun, with) == [c] + ReplaceRuns(t, inRun, with)
  {
    assert ([c] + t)[0] == c && ([c] + t)[1..] == t;
  }

  /** A run at the front becomes `with`, and the text after the run is replaced on its own. */
  lemma ReplaceRunsRunHead(s: string, inRun: char -> bool, with: char)
    requires s != [] && inRun(s[0])
    ensures ReplaceRuns(s, inRun, with) == [with] + ReplaceRuns(DropRun(s, inRun), inRun, with)
  {
  }

  /** The replaced text holds only `with` and characters of `s`, holds no character of
      the class unless `with` is one, and is `s` itself when `s` has no run. */
  lemma {:induction false} ReplaceRunsShape(s: string, inRun: char -> bool, with: char)
    ensures var r := ReplaceRuns(s, inRun, with);
            && (forall i :: 0 <= i < |r| ==> r[i] == with || r[i] in s)
            && (!inRun(with) ==> forall i :: 0 <= i < |r| ==> !inRun(r[i]))
            && ((forall i :: 0 <= i < |s| ==> !inRun(s[i])) ==> r == s)
    decreases |s|
  {
    if s != [] {
      var r := ReplaceRuns(s, inRun, with);
      if inRun(s[0]) {
        var d := DropRun(s, inRun);
        DropRunSuffix(s, inRun);
        ReplaceRunsShape(d, inRun, with);
        var rd := ReplaceRuns(d, inRun, with);
        ReplaceRunsRunHead(s, inRun, with);
        assert r == [with] + rd;
        forall i | 0 <= i < |r| ensures r[i] == with || r[i] in s {
          if i > 0 && r[i] != with {
            assert r[i] == rd[i - 1];
            var k :| 0 <= k < |d| && d[k] == rd[i - 1];
            assert d[k] == s[|s| - |d| + k];
          }
        }
        if !inRun(with) {
          forall i | 0 <= i < |r| ensures !inRun(r[i]) {
            if i > 0 {
              assert r[i] == rd[i - 1];
            }
          }
        }
      } else {
        var t := s[1..];
        ReplaceRunsShape(t, inRun, with);
        var rt := ReplaceRuns(t, inRun, with);
        assert s == [s[0]] + t;
        ReplaceRunsKeepHead(s[0], t, inRun, with);
        assert r == [s[0]] + rt;
        forall i | 0 <= i < |r| ensures r[i] == with || r[i] in s {
          if i > 0 {
            assert r[i] == rt[i - 1];
          }
        }
        if !inRun(with) {
          forall i | 0 <= i < |r| ensures !inRun(r[i]) {
            if i > 0 {
              assert r[i] == rt[i - 1];
            }
          }
        }
        if forall i :: 0 <= i < |s| ==> !inRun(s[i]) {
          assert forall i :: 0 <= i < |t| ==> t[i] == s[i + 1];
        }
      }
    }
  }

  /** Dropping a run stops at the first character outside the class. */
  lemma {:induction false} DropRunAppend(a: string, t: string, inRun: char -> bool)
    requires t == [] || !inRun(t[0])
    ensures DropRun(a + t, inRun) == DropRun(a, inRun) + t
  {
    if a == [] {
      assert a + t == t;
    } else {
      assert (a + t)[0] == a[0];
      if inRun(a[0]) {
        assert (a + t)[1..] == a[1..] + t;
        DropRunAppend(a[1..], t, inRun);
      }
    }
  }

  /** Runs never reach across `c`: the text on either side of it is replaced on its own. */
  predicate SplitsAt(a: string, c: char, b: string, inRun: char -> bool, with: char) {
    ReplaceRuns(a + [c] + b, inRun, with) == ReplaceRuns(a, inRun, with) + [c] + ReplaceRuns(b, inRun, with)
  }

  lemma SplitsAtKeptHead(a: string, c: char, b: string, inRun: char -> bool, with: char)
    requires a != [] && !inRun(a[0]) && !inRun(c)
    requires SplitsAt(a[1..], c, b, inRun, with)
    ensures SplitsAt(a, c, b, inRun, with)
  {
    var t := a[1..];
    assert a + [c] + b == [a[0]] + (t + [c] + b);
    assert a == [a[0]] + t;
    ReplaceRunsKeepHead(a[0], t + [c] + b, inRun, with);
    ReplaceRunsKeepHead(a[0], t, inRun, with);
  }

  lemma DropRunAcross(a: string, c: char, b: string, inRun: char -> bool)
    requires !inRun(c)
    ensures DropRun(a + [c] + b, inRun) == DropRun(a, inRun) + [c] + b
  {
    assert a + [c] + b == a + ([c] + b);
    DropRunAppend(a, [c] + b, inRun);
    assert DropRun(a, inRun) + ([c] + b) == DropRun(a, inRun) + [c] + b;
  }

  lemma RunHeadAcross(a: string, c: char, b: string, inRun: char -> bool, with: char)
    requires a != [] && inRun(a[0]) && !inRun(c)
    ensures ReplaceRuns(a + [c] + b, inRun, with) == [with] + ReplaceRuns(DropRun(a, inRun) + [c] + b, inRun, with)
  {
    assert (a + [c] + b)[0] == a[0];
    ReplaceRunsRunHead(a + [c] + b, inRun, with);
    DropRunAcross(a, c, b, inRun);
  }

  lemma SplitsAtRunHead(a: string, c: char, b: string, inRun: char -> bool, with: char)
    requires a != [] && inRun(a[0]) && !inRun(c)
    requires SplitsAt(DropRun(a, inRun), c, b, inRun, with)
    ensures SplitsAt(a, c, b, inRun, with)
  {
    RunHeadAcross(a, c, b, inRun, with);
    ReplaceRunsRunHead(a, inRun, with);
    ConsAssoc(with, ReplaceRuns(DropRun(a, inRun), inRun, with), c, ReplaceRuns(b, inRun, with));
  }

  lemma ConsAssoc<T>(x: T, p: seq<T>, c: T, q: seq<T>)
    ensures [x] + (p + [c] + q) == ([x] + p) + [c] + q
  {
  }

  /** A character outside the class is kept where it is, and the text on either side of it
      is replaced on its own. */
  lemma {:induction false} ReplaceRunsAround(a: string, c: char, b: string, inRun: char -> bool, with: char)
    requires !inRun(c)
    ensures ReplaceRuns(a + [c] + b, inRun, with) == ReplaceRuns(a, inRun, with) + [c] + ReplaceRuns(b, inRun, with)
    decreases |a|
  {
    if a == [] {
      assert a + [c] + b == [c] + b;
      ReplaceRunsKeepHead(c, b, inRun, with);
    } else if !inRun(a[0]) {
      ReplaceRunsAround(a[1..], c, b, inRun, with);
      SplitsAtKeptHead(a, c, b, inRun, with);
    } else {
      ReplaceRunsAround(DropRun(a, inRun), c, b, inRun, with);
      SplitsAtRunHead(a, c, b, inRun, with);
    }
  }

  /** A whole run, however long, becomes the one character `with`. */
  lemma ReplaceRunsOfRun(s: string, inRun: char -> bool, with: char)
    requires s != [] && forall i :: 0 <= i < |s| ==> inRun(s[i])
    ensures ReplaceRuns(s, inRun, with) == [with]
  {
    DropRunSuffix(s, inRun);
  }

  /** A run followed by a piece without a run becomes `with` followed by the piece. */
  lemma ReplaceRunsRunThenPlain(gap: string, b: string, inRun: char -> bool, with: char)
    requires b != [] && gap != []
    requires forall i :: 0 <= i < |b| ==> !inRun(b[i])
    requires forall i :: 0 <= i < |gap| ==> inRun(gap[i])
    ensures ReplaceRuns(gap + b, inRun, with) == [with] + b
  {
    assert DropRun(gap, inRun) == [] by {
      DropRunSuffix(gap, inRun);
    }
    assert DropRun(gap + b, inRun) == b by {
      DropRunAppend(gap, b, inRun);
    }
    assert ReplaceRuns(gap + b, inRun, with) == [with] + ReplaceRuns(b, inRun, with) by {
      assert (gap + b)[0] == gap[0];
      ReplaceRunsRunHead(gap + b, inRun, with);
    }
    ReplaceRunsShape(b, inRun, with);
  }

  /** Two pieces without a run, joined by a run, come out joined by the one `with`. */
  lemma ReplaceRunsJoin(a: string, gap: string, b: string, inRun: char -> bool, with: char)
    requires a != [] && b != [] && gap != []
    requires forall i :: 0 <= i < |a| ==> !inRun(a[i])
    requires forall i :: 0 <= i < |b| ==> !inRun(b[i])
    requires forall i :: 0 <= i < |gap| ==> inRun(gap[i])
    ensures ReplaceRuns(a + gap + b, inRun, with) == a + [with] + b
  {
    var a', c := a[..|a| - 1], a[|a| - 1];
    assert a == a' + [c];
    assert a + gap + b == a' + [c] + (gap + b);
    assert forall i :: 0 <= i < |a'| ==> a'[i] == a[i];
    ReplaceRunsAround(a', c, gap + b, inRun, with);
    ReplaceRunsShape(a', inRun, with);
    ReplaceRunsRunThenPlain(gap, b, inRun, with);
  }

  /** `value.replace(/_/g, " ")`. */
  function UnderscoreToSpace(c: char): char {
    if c == '_' then ' ' else c
  }

  /** `s.split(" ")`: always at least one piece, the pieces hold no space. */
  function Split(s: string): (words: seq<string>)
    ensures |words| >= 1
    ensures forall k :: 0 <= k < |words| ==> ' ' !in words[k]
    decreases |s|
  {
    if ' ' in s then
      var i := IndexOfSpace(s);
      [s[..i]] + Split(s[i + 1..])
    else [s]
  }

  function IndexOfSpace(s: string): (i: nat)
    requires ' ' in s
    ensures i < |s| && s[i] == ' ' && ' ' !in s[..i]
  {
    if s[0] == ' ' then 0 else 1 + IndexOfSpace(s[1..])
  }

  /** `words.join(" ")`. */
  function Join(words: seq<string>): string
    requires |words| >= 1
  {
    if |words| == 1 then words[0] else words[0] + " " + Join(words[1..])
  }

  /** `word ? word[0].toUpperCase() + word.slice(1) : ""`. */
  function Capitalize(word: string): string {
    if word == [] then [] else [UpperChar(word[0])] + word[1..]
  }

  function CapitalizeAll(words: seq<string>): (r: seq<string>)
    ensures |r| == |words|
    ensures forall k :: 0 <= k < |words| ==> r[k] == Capitalize(words[k])
  {
    if words == [] then [] else [Capitalize(words[0])] + CapitalizeAll(words[1..])
  }

  /** `value.replace(/_/g, " ")` over the whole value. */
  function Spaced(value: string): (r: string)
    ensures |r| == |value|
    ensures forall i :: 0 <= i < |value| ==> r[i] == UnderscoreToSpace(value[i])
  {
    seq(|value|, i requires 0 <= i < |value| => UnderscoreToSpace(value[i]))
  }

  /** `formatLabel` of the home pages: underscores become spaces and the first character
      of every space-separated word is upper-cased; see FormatLabelAt for what it yields
      character by character. */
  function FormatLabel(value: string): string {
    Join(CapitalizeAll(Split(Spaced(value))))
  }

  /** Whether the character at `i` starts a word once underscores are spaces. */
  predicate StartsWord(value: string, i: nat)
    requires i < |value|
  {
    i == 0 || value[i - 1] == '_' || value[i - 1] == ' '
  }

  /** Reference definition of word capitalisation, character by character: `atStart`
      says whether the first character of `s` begins a word. */
  function CapitalizeFrom(s: string, atStart: bool): (r: string)
    ensures |r| == |s|
  {
    if s == [] then []
    else [if atStart then UpperChar(s[0]) else s[0]] + CapitalizeFrom(s[1..], s[0] == ' ')
  }

  lemma {:induction false} CapitalizeFromAt(s: string, atStart: bool, i: nat)
    requires i < |s|
    ensures CapitalizeFrom(s, atStart)[i] ==
            if (if i == 0 then atStart else s[i - 1] == ' ') then UpperChar(s[i]) else s[i]
  {
    if i > 0 {
      CapitalizeFromAt(s[1..], s[0] == ' ', i - 1);
    }
  }

  lemma {:induction false} CapitalizeFromWord(w: string, rest: string, atStart: bool)
    requires ' ' !in w
    ensures CapitalizeFrom(w + rest, atStart) ==
            (if atStart then Capitalize(w) else w) + CapitalizeFrom(rest, if w == [] then atStart else false)
  {
    if w != [] {
      assert w[0] in w && w[0] != ' ';
      assert forall c :: c in w[1..] ==> c in w;
      assert (w + rest)[0] == w[0];
      assert (w + rest)[1..] == w[1..] + rest;
      CapitalizeFromWord(w[1..], rest, false);
      var head := if atStart then UpperChar(w[0]) else w[0];
      calc {
        CapitalizeFrom(w + rest, atStart);
        [head] + CapitalizeFrom(w[1..] + rest, false);
        [head] + (w[1..] + CapitalizeFrom(rest, false));
        ([head] + w[1..]) + CapitalizeFrom(rest, false);
      }
      assert [head] + w[1..] == if atStart then Capitalize(w) else w;
    } else {
      assert w + rest == rest;
    }
  }

  /** Splitting at the first space, capitalising and joining peels off the first word. */
  lemma JoinCapitalizeFirstWord(s: string)
    requires ' ' in s
    ensures var i := IndexOfSpace(s);
            Join(CapitalizeAll(Split(s))) == Capitalize(s[..i]) + " " + Join(CapitalizeAll(Split(s[i + 1..])))
  {
    var i := IndexOfSpace(s);
    var w, words := s[..i], Split(s[i + 1..]);
    assert Split(s) == [w] + words;
    var caps := CapitalizeAll(words);
    assert ([w] + words)[1..] == words;
    assert CapitalizeAll(Split(s)) == [Capitalize(w)] + caps;
    assert ([Capitalize(w)] + caps)[1..] == caps;
  }

  /** A space is never upper-cased, and the character after it starts a word. */
  lemma CapitalizeFromSpace(rest: string, atStart: bool)
    ensures CapitalizeFrom([' '] + rest, atStart) == [' '] + CapitalizeFrom(rest, true)
  {
    assert ([' '] + rest)[1..] == rest;
  }

  lemma {:induction false} JoinCapitalizeSplit(s: string)
    ensures Join(CapitalizeAll(Split(s))) == CapitalizeFrom(s, true)
    decreases |s|
  {
    if ' ' in s {
      var i := IndexOfSpace(s);
      var w, rest := s[..i], s[i + 1..];
      JoinCapitalizeFirstWord(s);
      JoinCapitalizeSplit(rest);
      CapitalizeFromSpace(rest, w == []);
      CapitalizeFromWord(w, [' '] + rest, true);
      assert w + ([' '] + rest) == s;
    } else {
      CapitalizeFromWord(s, [], true);
      assert s + [] == s;
    }
  }

  /** formatLabel keeps the length; at a word start it yields the upper-cased character,
      elsewhere the character itself, with every underscore turned into a space. */
  lemma FormatLabelAt(value: string)
    ensures |FormatLabel(value)| == |value|
    ensures forall i :: 0 <= i < |value| ==>
              FormatLabel(value)[i] ==
              if StartsWord(value, i) then UpperChar(UnderscoreToSpace(value[i])) else UnderscoreToSpace(value[i])
  {
    var spaced := Spaced(value);
    JoinCapitalizeSplit(spaced);
    var r := CapitalizeFrom(spaced, true);
    assert FormatLabel(value) == r;
    forall i | 0 <= i < |value|
      ensures r[i] == if StartsWord(value, i) then UpperChar(UnderscoreToSpace(value[i])) else UnderscoreToSpace(value[i])
    {
      CapitalizeFromAt(spaced, true, i);
    }
  }

  /** formatLabel never leaves an underscore behind. */
  lemma FormatLabelHasNoUnderscore(value: string)
    ensures '_' !in FormatLabel(value)
  {
    FormatLabelAt(value);
    var r := FormatLabel(value);
    forall i | 0 <= i < |r| ensures r[i] != '_' {
      assert UnderscoreToSpace(value[i]) != '_';
    }
  }
}
