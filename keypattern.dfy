// `parse_key_pattern` (src/cursordata/utils.py): a `{name}` template is
// compiled into a regex in which every placeholder but the last one matches
// `[^:]+` and the last one matches `.*`; `re.match` then anchors the regex at
// the start of the key only. The regex is modelled as a sequence of segments,
// and the matcher follows Python's backtracking order (greedy quantifiers try
// the longest run first), so it finds the same match and the same captures.
module KeyPattern {
  import opened Wrappers

  // ----- string helpers -----

  /** Index of the first `c` in `s`. */
  function IndexOf(s: string, c: char): (r: Option<nat>)
    ensures r.None? <==> c !in s
    ensures r.Some? ==> r.value < |s| && s[r.value] == c
    ensures r.Some? ==> c !in s[..r.value]
  {
    if s == [] then None
    else if s[0] == c then Some(0)
    else match IndexOf(s[1..], c)
      case None => None
      case Some(i) =>
        assert s[..i + 1] == [s[0]] + s[1..][..i];
        Some(i + 1)
  }

  /** `s.split(c)`. */
  function Split(s: string, c: char): (parts: seq<string>)
    ensures |parts| >= 1
    ensures forall i :: 0 <= i < |parts| ==> c !in parts[i]
    decreases |s|
  {
    match IndexOf(s, c)
    case None => [s]
    case Some(i) => [s[..i]] + Split(s[i + 1..], c)
  }

  /** `c.join(parts)`. */
  function Join(parts: seq<string>, c: char): string
    requires |parts| >= 1
  {
    if |parts| == 1 then parts[0] else parts[0] + [c] + Join(parts[1..], c)
  }

  lemma {:induction false} JoinSplit(s: string, c: char)
    ensures Join(Split(s, c), c) == s
    decreases |s|
  {
    hide *;
    SplitStep(s, c);
    match IndexOf(s, c)
    case None =>
      JoinStep([s], c);
    case Some(i) =>
      var tail := Split(s[i + 1..], c);
      JoinSplit(s[i + 1..], c);
      JoinCons(s[..i], tail, c);
      CutAt(s, i);
  }

  lemma JoinCons(head: string, tail: seq<string>, c: char)
    requires |tail| >= 1
    ensures Join([head] + tail, c) == head + [c] + Join(tail, c)
  {
    assert ([head] + tail)[0] == head && ([head] + tail)[1..] == tail;
  }

  lemma CutAt(s: string, i: nat)
    requires i < |s|
    ensures s == s[..i] + [s[i]] + s[i + 1..]
  {
  }

  lemma SplitStep(s: string, c: char)
    ensures Split(s, c) == match IndexOf(s, c) case None => [s] case Some(i) => [s[..i]] + Split(s[i + 1..], c)
  {
  }

  lemma JoinStep(parts: seq<string>, c: char)
    requires |parts| >= 1
    ensures Join(parts, c) == if |parts| == 1 then parts[0] else parts[0] + [c] + Join(parts[1..], c)
  {
  }

  lemma {:induction false} NoSeparatorSplit(s: string, c: char)
    requires c !in s
    ensures Split(s, c) == [s]
  {
  }

  lemma {:induction false} SplitAtFirst(a: string, c: char, b: string)
    requires c !in a
    ensures Split(a + [c] + b, c) == [a] + Split(b, c)
  {
    var s := a + [c] + b;
    IndexOfAfter(a, c, b);
    assert s[..|a|] == a && s[|a| + 1..] == b;
  }

  lemma {:induction false} IndexOfAfter(a: string, c: char, b: string)
    requires c !in a
    ensures IndexOf(a + [c] + b, c) == Some(|a|)
  {
    if a != [] {
      assert (a + [c] + b)[1..] == a[1..] + [c] + b;
      IndexOfAfter(a[1..], c, b);
    }
  }

  // ----- the compiled pattern -----

  /** A piece of the compiled regex: an escaped literal, or a named group. */
  datatype Seg = Lit(text: string) | Hole(name: string, last: bool)

  /** The segments the `{`-part `part` adds: nothing when it has no `}`. */
  function PartSegs(part: string, last: bool): seq<Seg>
  {
    match IndexOf(part, '}')
    case None => []
    case Some(j) =>
      [Hole(part[..j], last)] + (if part[j + 1..] != "" then [Lit(part[j + 1..])] else [])
  }

  /** The regex built from the first `n` of the `{`-separated parts. */
  function Segs(parts: seq<string>, n: nat): seq<Seg>
    requires 1 <= n <= |parts|
  {
    if n == 1 then [Lit(parts[0])]
    else Segs(parts, n - 1) + PartSegs(parts[n - 1], n - 1 == |parts| - 1)
  }

  /** The regex `pattern` compiles to (only used when the pattern holds a `{`). */
  function Compile(pattern: string): seq<Seg>
  {
    var parts := Split(pattern, '{');
    if |parts| == 1 then [Lit(pattern)] else Segs(parts, |parts|)
  }

  /** The names of the groups, as a set. */
  function Names(segs: seq<Seg>): set<string>
  {
    if segs == [] then {}
    else (if segs[0].Hole? then {segs[0].name} else {}) + Names(segs[1..])
  }

  predicate DistinctNames(segs: seq<Seg>)
  {
    segs == [] ||
    ((segs[0].Hole? ==> segs[0].name !in Names(segs[1..])) && DistinctNames(segs[1..]))
  }

  predicate IdentStart(c: char)
  {
    'a' <= c <= 'z' || 'A' <= c <= 'Z' || c == '_'
  }

  predicate IdentPart(c: char)
  {
    IdentStart(c) || '0' <= c <= '9'
  }

  /**
   * A group name the model accepts: an ASCII identifier. Python's `re` also
   * accepts Unicode identifiers, and a name containing `>` ends the group
   * name early; both are treated here as `re.error`.
   */
  predicate Identifier(s: string)
  {
    s != [] && IdentStart(s[0]) && forall i :: 1 <= i < |s| ==> IdentPart(s[i])
  }

  /** Every group name is an identifier and no name is used twice. */
  predicate WellFormed(segs: seq<Seg>)
  {
    DistinctNames(segs) && forall i :: 0 <= i < |segs| && segs[i].Hole? ==> Identifier(segs[i].name)
  }

  // ----- matching, in Python's backtracking order -----

  /** The characters a group admits: `.` (no newline) for the last, `[^:]` otherwise. */
  predicate Admits(c: char, last: bool)
  {
    if last then c != '\n' else c != ':'
  }

  /** Length of the longest prefix of `s` a group can consume. */
  function Run(s: string, last: bool): (n: nat)
    ensures n <= |s|
    ensures forall i :: 0 <= i < n ==> Admits(s[i], last)
    ensures n < |s| ==> !Admits(s[n], last)
  {
    if s == [] || !Admits(s[0], last) then 0 else 1 + Run(s[1..], last)
  }

  /** `re.match(regex, s).groupdict()`, or None when there is no match. */
  function Match(segs: seq<Seg>, s: string): Option<map<string, string>>
    decreases |segs|, 1, 0
  {
    if segs == [] then Some(map[])
    else match segs[0]
      case Lit(t) => if t <= s then Match(segs[1..], s[|t|..]) else None
      case Hole(n, last) =>
        var k := Run(s, last);
        var lo := if last then 0 else 1;
        if k < lo then None else Backtrack(n, segs[1..], s, k, lo)
  }

  /** Give the group the first `k` characters, then one fewer, down to `lo`. */
  function Backtrack(name: string, rest: seq<Seg>, s: string, k: nat, lo: nat): Option<map<string, string>>
    requires lo <= k <= |s|
    decreases |rest| + 1, 0, k
  {
    match Match(rest, s[k..])
    case Some(m) => Some(m[name := s[..k]])
    case None => if k == lo then None else Backtrack(name, rest, s, k - 1, lo)
  }

  /** `parse_key_pattern(key, pattern)`; a malformed group name makes `re.match` raise. */
  function KeyParts(key: string, pattern: string): Result<Option<map<string, string>>>
  {
    var parts := Split(pattern, '{');
    if |parts| == 1 then Ok(if key == pattern then Some(map[]) else None)
    else
      var segs := Segs(parts, |parts|);
      if WellFormed(segs) then Ok(Match(segs, key)) else Err(RegexError)
  }

  /** The source's loop: append one group (and the literal after it) per `{`-part. */
  method ParseKeyPattern(key: string, pattern: string) returns (r: Result<Option<map<string, string>>>)
    ensures r == KeyParts(key, pattern)
  {
    hide Match, Backtrack, Run, Names, DistinctNames, WellFormed, Unparse, Compile, Join;
    var parts := Split(pattern, '{');
    if |parts| == 1 {
      return Ok(if key == pattern then Some(map[]) else None);
    }
    var segs := [Lit(parts[0])];
    var i := 1;
    while i < |parts|
      invariant 1 <= i <= |parts|
      invariant segs == Segs(parts, i)
    {
      var part := parts[i];
      var close := IndexOf(part, '}');
      if close.Some? {
        var name, rest := part[..close.value], part[close.value + 1..];
        segs := segs + [Hole(name, i == |parts| - 1)];
        if rest != "" {
          segs := segs + [Lit(rest)];
        }
      }
      i := i + 1;
    }
    if !WellFormed(segs) {
      return Err(RegexError);
    }
    r := Ok(Match(segs, key));
  }

  // ----- what the compiled pattern means -----

  /** The pattern text a segment sequence stands for. */
  function Unparse(segs: seq<Seg>): string
  {
    if segs == [] then "" else SegText(segs[0]) + Unparse(segs[1..])
  }

  function SegText(seg: Seg): string
  {
    match seg
    case Lit(t) => t
    case Hole(n, _) => "{" + n + "}"
  }

  lemma {:induction false} UnparseAppend(a: seq<Seg>, b: seq<Seg>)
    ensures Unparse(a + b) == Unparse(a) + Unparse(b)
  {
    if a != [] {
      assert (a + b)[0] == a[0] && (a + b)[1..] == a[1..] + b;
      UnparseAppend(a[1..], b);
    } else {
      assert a + b == b;
    }
  }

  lemma {:induction false} JoinSnoc(parts: seq<string>, c: char, p: string)
    requires |parts| >= 1
    ensures Join(parts + [p], c) == Join(parts, c) + [c] + p
  {
    if |parts| > 1 {
      assert (parts + [p])[1..] == parts[1..] + [p];
      JoinSnoc(parts[1..], c, p);
    }
  }

  lemma UnparseNil()
    ensures Unparse([]) == ""
  {
  }

  lemma {:induction false} UnparseOne(seg: Seg)
    ensures Unparse([seg]) == SegText(seg)
  {
    assert [seg][1..] == [];
    assert Unparse([seg]) == SegText(seg) + Unparse([]);
  }

  lemma {:induction false} UnparsePart(part: string, last: bool)
    requires '}' in part
    ensures Unparse(PartSegs(part, last)) == "{" + part
  {
    hide *;
    var j := IndexOf(part, '}').value;
    var name, rest := part[..j], part[j + 1..];
    var tailSegs := if rest != "" then [Lit(rest)] else [];
    PartSegsAt(part, last, j);
    assert Unparse(tailSegs) == rest by {
      if rest != "" {
        UnparseOne(Lit(rest));
        HoleText(rest, last);
      } else {
        UnparseNil();
      }
    }
    UnparseAppend([Hole(name, last)], tailSegs);
    UnparseOne(Hole(name, last));
    HoleText(name, last);
    CutAt(part, j);
  }

  lemma PartSegsAt(part: string, last: bool, j: nat)
    requires IndexOf(part, '}') == Some(j)
    ensures PartSegs(part, last) == [Hole(part[..j], last)] + (if part[j + 1..] != "" then [Lit(part[j + 1..])] else [])
  {
  }

  lemma HoleText(t: string, last: bool)
    ensures SegText(Hole(t, last)) == "{" + t + "}" && SegText(Lit(t)) == t
  {
  }

  lemma {:induction false} UnparseSegs(parts: seq<string>, n: nat)
    requires 1 <= n <= |parts|
    requires forall i :: 1 <= i < |parts| ==> '}' in parts[i]
    ensures Unparse(Segs(parts, n)) == Join(parts[..n], '{')
  {
    hide Unparse, PartSegs, IndexOf, Split, Match, Backtrack, Names, DistinctNames, WellFormed, Compile, KeyParts;
    if n == 1 {
      assert parts[..1] == [parts[0]];
      UnparseOne(Lit(parts[0]));
    } else {
      UnparseSegs(parts, n - 1);
      UnparseSegsStep(parts, n);
    }
  }

  lemma {:induction false} UnparseSegsStep(parts: seq<string>, n: nat)
    requires 2 <= n <= |parts| && '}' in parts[n - 1]
    requires Unparse(Segs(parts, n - 1)) == Join(parts[..n - 1], '{')
    ensures Unparse(Segs(parts, n)) == Join(parts[..n], '{')
  {
    hide *;
    var part := parts[n - 1];
    var a := Join(parts[..n - 1], '{');
    UnparseLastPart(parts, n);
    UnparsePart(part, n - 1 == |parts| - 1);
    JoinLast(parts, n);
    assert a + ("{" + part) == a + ['{'] + part;
  }

  lemma {:induction false} UnparseLastPart(parts: seq<string>, n: nat)
    requires 2 <= n <= |parts|
    ensures Unparse(Segs(parts, n)) == Unparse(Segs(parts, n - 1)) + Unparse(PartSegs(parts[n - 1], n - 1 == |parts| - 1))
  {
    UnparseAppend(Segs(parts, n - 1), PartSegs(parts[n - 1], n - 1 == |parts| - 1));
  }

  lemma {:induction false} JoinLast(parts: seq<string>, n: nat)
    requires 2 <= n <= |parts|
    ensures Join(parts[..n], '{') == Join(parts[..n - 1], '{') + ['{'] + parts[n - 1]
  {
    JoinSnoc(parts[..n - 1], '{', parts[n - 1]);
    assert parts[..n] == parts[..n - 1] + [parts[n - 1]];
  }

  /** Compilation loses nothing but the `{`-parts that have no closing `}`. */
  lemma {:induction false} CompileKeepsClosedParts(pattern: string)
    requires forall i :: 1 <= i < |Split(pattern, '{')| ==> '}' in Split(pattern, '{')[i]
    ensures Unparse(Compile(pattern)) == pattern
  {
    var parts := Split(pattern, '{');
    JoinSplit(pattern, '{');
    if |parts| > 1 {
      UnparseSegs(parts, |parts|);
      assert parts[..|parts|] == parts;
    }
  }

  /** A pattern without placeholders matches exactly the key equal to it. */
  lemma {:induction false} NoPlaceholderIsExactMatch(key: string, pattern: string)
    requires '{' !in pattern
    ensures KeyParts(key, pattern) == Ok(if key == pattern then Some(map[]) else None)
  {
    NoSeparatorSplit(pattern, '{');
  }

  // ----- the round trip -----

  /** Every group but the last is followed by a literal that starts with `:`, and the last group ends the pattern. */
  predicate Separated(segs: seq<Seg>)
  {
    segs == [] ||
    ((match segs[0]
      case Lit(_) => true
      case Hole(_, last) =>
        if last then |segs| == 1
        else |segs| >= 2 && segs[1].Lit? && segs[1].text != "" && segs[1].text[0] == ':')
     && Separated(segs[1..]))
  }

  /** A value a group can capture whole: the last any line, the others non-empty and colon-free. */
  predicate ValueFits(v: string, last: bool)
  {
    if last then '\n' !in v else v != "" && ':' !in v
  }

  predicate Fits(segs: seq<Seg>, vals: map<string, string>)
  {
    segs == [] ||
    ((segs[0].Hole? ==> segs[0].name in vals && ValueFits(vals[segs[0].name], segs[0].last))
     && Fits(segs[1..], vals))
  }

  /** The key obtained by writing each group's value in place of its placeholder. */
  function Render(segs: seq<Seg>, vals: map<string, string>): string
    requires Fits(segs, vals)
  {
    if segs == [] then "" else SegValue(segs[0], vals) + Render(segs[1..], vals)
  }

  function SegValue(seg: Seg, vals: map<string, string>): string
    requires seg.Hole? ==> seg.name in vals
  {
    match seg
    case Lit(t) => t
    case Hole(n, _) => vals[n]
  }

  function Restrict(vals: map<string, string>, names: set<string>): map<string, string>
  {
    map n | n in names && n in vals :: vals[n]
  }

  predicate EndsWithLastGroup(segs: seq<Seg>)
  {
    |segs| > 0 && segs[|segs| - 1].Hole? && segs[|segs| - 1].last
  }

  lemma {:induction false} RunStops(v: string, w: string, last: bool)
    requires forall i :: 0 <= i < |v| ==> Admits(v[i], last)
    requires w == [] || !Admits(w[0], last)
    ensures Run(v + w, last) == |v|
  {
    if v != [] {
      assert (v + w)[1..] == v[1..] + w;
      RunStops(v[1..], w, last);
    }
  }

  lemma {:induction false} FitsNames(segs: seq<Seg>, vals: map<string, string>)
    requires Fits(segs, vals)
    ensures Names(segs) <= vals.Keys
  {
    if segs != [] {
      FitsNames(segs[1..], vals);
    }
  }

  lemma {:induction false} MatchLiteral(segs: seq<Seg>, x: string)
    requires segs != [] && segs[0].Lit?
    ensures Match(segs, segs[0].text + x) == Match(segs[1..], x)
  {
    var l := segs[0].text;
    assert (l + x)[|l|..] == x;
  }

  lemma {:induction false} MatchGroup(segs: seq<Seg>, v: string, x: string, m: map<string, string>)
    requires segs != [] && segs[0].Hole?
    requires forall i :: 0 <= i < |v| ==> Admits(v[i], segs[0].last)
    requires !segs[0].last ==> v != ""
    requires x == [] || !Admits(x[0], segs[0].last)
    requires Match(segs[1..], x) == Some(m)
    ensures Match(segs, v + x) == Some(m[segs[0].name := v])
  {
    RunStops(v, x, segs[0].last);
    assert (v + x)[|v|..] == x && (v + x)[..|v|] == v;
  }

  /** Rendering values into the pattern and matching gives the values back. Text
      after the last literal is tolerated, since the match is anchored at the start only. */
  lemma {:induction false} MatchRendered(segs: seq<Seg>, vals: map<string, string>, t: string)
    requires Separated(segs) && Fits(segs, vals)
    requires EndsWithLastGroup(segs) ==> t == ""
    ensures Match(segs, Render(segs, vals) + t) == Some(Restrict(vals, Names(segs)))
    decreases |segs|
  {
    if segs == [] {
      assert Restrict(vals, {}) == map[];
    } else if segs[0].Hole? && segs[0].last {
      MatchRenderedLastGroup(segs, vals, t);
    } else {
      assert EndsWithLastGroup(segs[1..]) ==> EndsWithLastGroup(segs);
      MatchRendered(segs[1..], vals, t);
      MatchRenderedStep(segs, vals, t);
    }
  }

  lemma {:induction false} RestrictAdd(vals: map<string, string>, n: string, names: set<string>)
    requires n in vals
    ensures Restrict(vals, {n} + names) == Restrict(vals, names)[n := vals[n]]
  {
  }

  lemma {:induction false} MatchRenderedLastGroup(segs: seq<Seg>, vals: map<string, string>, t: string)
    requires Separated(segs) && Fits(segs, vals)
    requires segs != [] && segs[0].Hole? && segs[0].last
    requires t == ""
    ensures Match(segs, Render(segs, vals) + t) == Some(Restrict(vals, Names(segs)))
  {
    var n := segs[0].name;
    var v := vals[n];
    assert segs[1..] == [];
    assert Render(segs, vals) + t == v + "";
    MatchGroup(segs, v, "", map[]);
    assert Names(segs) == {n} + {};
    RestrictAdd(vals, n, {});
    assert Restrict(vals, {}) == map[];
  }

  lemma {:induction false} MatchRenderedStep(segs: seq<Seg>, vals: map<string, string>, t: string)
    requires Separated(segs) && Fits(segs, vals)
    requires segs != [] && !(segs[0].Hole? && segs[0].last)
    requires Match(segs[1..], Render(segs[1..], vals) + t) == Some(Restrict(vals, Names(segs[1..])))
    ensures Match(segs, Render(segs, vals) + t) == Some(Restrict(vals, Names(segs)))
  {
    var tail := Render(segs[1..], vals) + t;
    assert Render(segs, vals) + t == SegValue(segs[0], vals) + tail;
    match segs[0]
    case Lit(l) =>
      assert Names(segs) == Names(segs[1..]);
      MatchLiteral(segs, tail);
    case Hole(n, last) =>
      RenderStartsWithLiteral(segs[1..], vals, t);
      MatchGroup(segs, vals[n], tail, Restrict(vals, Names(segs[1..])));
      assert Names(segs) == {n} + Names(segs[1..]);
      RestrictAdd(vals, n, Names(segs[1..]));
  }

  lemma {:induction false} RenderStartsWithLiteral(segs: seq<Seg>, vals: map<string, string>, t: string)
    requires segs != [] && segs[0].Lit? && segs[0].text != "" && Fits(segs, vals)
    ensures (Render(segs, vals) + t)[0] == segs[0].text[0]
  {
    assert Render(segs, vals) + t == segs[0].text + (Render(segs[1..], vals) + t);
  }

  /** `parse_key_pattern` recovers exactly the parts a key was built from. */
  lemma {:induction false} ParseRecoversParts(pattern: string, vals: map<string, string>, t: string)
    requires '{' in pattern
    requires WellFormed(Compile(pattern)) && Separated(Compile(pattern))
    requires Fits(Compile(pattern), vals) && vals.Keys == Names(Compile(pattern))
    requires EndsWithLastGroup(Compile(pattern)) ==> t == ""
    ensures KeyParts(Render(Compile(pattern), vals) + t, pattern) == Ok(Some(vals))
  {
    var parts := Split(pattern, '{');
    if |parts| == 1 {
      JoinSplit(pattern, '{');
      assert false;
    }
    MatchRendered(Compile(pattern), vals, t);
    assert Restrict(vals, vals.Keys) == vals;
  }

  // ----- keys that cannot match -----

  function Colons(s: string): nat
  {
    if s == [] then 0 else (if s[0] == ':' then 1 else 0) + Colons(s[1..])
  }

  /** The colons the literals of a pattern demand. */
  function LiteralColons(segs: seq<Seg>): nat
  {
    if segs == [] then 0 else (if segs[0].Lit? then Colons(segs[0].text) else 0) + LiteralColons(segs[1..])
  }

  lemma LiteralColonsStep(segs: seq<Seg>)
    ensures segs == [] ==> LiteralColons(segs) == 0
    ensures segs != [] ==>
      LiteralColons(segs) == (if segs[0].Lit? then Colons(segs[0].text) else 0) + LiteralColons(segs[1..])
  {
  }

  lemma {:induction false} ColonsAppend(a: string, b: string)
    ensures Colons(a + b) == Colons(a) + Colons(b)
  {
    if a != [] {
      assert (a + b)[0] == a[0] && (a + b)[1..] == a[1..] + b;
      ColonsAppend(a[1..], b);
    } else {
      assert a + b == b;
    }
  }

  lemma {:induction false} BacktrackFound(name: string, rest: seq<Seg>, s: string, k: nat, lo: nat)
    requires lo <= k <= |s|
    requires Backtrack(name, rest, s, k, lo).Some?
    ensures exists j :: lo <= j <= k && Match(rest, s[j..]).Some?
    decreases k
  {
    if Match(rest, s[k..]).None? {
      BacktrackFound(name, rest, s, k - 1, lo);
    }
  }

  /** A key with fewer colons than the pattern's literals does not match. */
  lemma {:induction false} MatchNeedsColons(segs: seq<Seg>, s: string)
    requires Match(segs, s).Some?
    ensures Colons(s) >= LiteralColons(segs)
    decreases |segs|
  {
    if segs != [] {
      match segs[0]
      case Lit(l) =>
        assert s == l + s[|l|..];
        ColonsAppend(l, s[|l|..]);
        MatchNeedsColons(segs[1..], s[|l|..]);
      case Hole(n, last) =>
        var k := Run(s, last);
        var lo := if last then 0 else 1;
        BacktrackFound(n, segs[1..], s, k, lo);
        var j :| lo <= j <= k && Match(segs[1..], s[j..]).Some?;
        MatchNeedsColons(segs[1..], s[j..]);
        assert s == s[..j] + s[j..];
        ColonsAppend(s[..j], s[j..]);
    }
  }

  // ----- the key formats of the store -----

  lemma {:induction false} PartSegsOf(name: string, rest: string, last: bool)
    requires '}' !in name
    ensures PartSegs(name + "}" + rest, last) == [Hole(name, last)] + (if rest != "" then [Lit(rest)] else [])
  {
    IndexOfAfter(name, '}', rest);
    var part := name + "}" + rest;
    assert part[..|name|] == name && part[|name| + 1..] == rest;
  }

  /** `<lit>{<a>}<sep>{<b>}` compiles to a literal, an inner group, a separator and a last group. */
  lemma {:induction false} CompileTwoGroups(lit: string, a: string, sep: string, b: string)
    requires '{' !in lit && '{' !in a && '}' !in a && '{' !in sep && '{' !in b && '}' !in b && sep != ""
    ensures Compile(lit + "{" + a + "}" + sep + "{" + b + "}")
         == [Lit(lit), Hole(a, false), Lit(sep), Hole(b, true)]
  {
    hide *;
    var pattern := lit + "{" + a + "}" + sep + "{" + b + "}";
    var p1, p2 := a + "}" + sep, b + "}";
    assert '{' !in p1 && '{' !in p2;
    assert pattern == lit + ['{'] + (p1 + ['{'] + p2);
    TwoSplits(lit, p1, p2);
    CompileOfThree(pattern, lit, p1, p2);
    PartSegsOf(a, sep, false);
    PartSegsOf(b, "", true);
    assert b + "}" + "" == p2;
    assert PartSegs(p1, false) == [Hole(a, false), Lit(sep)];
    assert PartSegs(p2, true) == [Hole(b, true)];
  }

  lemma {:induction false} CompileOfThree(pattern: string, x: string, y: string, z: string)
    requires Split(pattern, '{') == [x, y, z]
    ensures Compile(pattern) == [Lit(x)] + PartSegs(y, false) + PartSegs(z, true)
  {
    ThreeParts(x, y, z);
  }

  lemma {:induction false} ThreeParts(x: string, y: string, z: string)
    ensures Segs([x, y, z], 3) == [Lit(x)] + PartSegs(y, false) + PartSegs(z, true)
  {
    var parts := [x, y, z];
    assert Segs(parts, 2) == [Lit(x)] + PartSegs(y, false);
  }

  lemma {:induction false} TwoSplits(x: string, y: string, z: string)
    requires '{' !in x && '{' !in y && '{' !in z
    ensures Split(x + ['{'] + (y + ['{'] + z), '{') == [x, y, z]
  {
    SplitAtFirst(x, '{', y + ['{'] + z);
    SplitAtFirst(y, '{', z);
    NoSeparatorSplit(z, '{');
  }

  /** `<lit>{<a>}` compiles to a literal and a last group. */
  lemma {:induction false} CompileOneGroup(lit: string, a: string)
    requires '{' !in lit && '{' !in a && '}' !in a
    ensures Compile(lit + "{" + a + "}") == [Lit(lit), Hole(a, true)]
  {
    var pattern := lit + "{" + a + "}";
    var p1 := a + "}";
    assert '{' !in p1;
    assert pattern == lit + ['{'] + p1;
    SplitAtFirst(lit, '{', p1);
    NoSeparatorSplit(p1, '{');
    assert Split(pattern, '{') == [lit, p1];
    PartSegsOf(a, "", true);
    assert a + "}" + "" == p1;
    assert Segs([lit, p1], 2) == [Lit(lit)] + PartSegs(p1, true);
  }

  /** The segments of a two-group pattern are well formed and separated. */
  lemma {:induction false} TwoGroupSegsShape(lit: string, a: string, sep: string, b: string)
    requires Identifier(a) && Identifier(b) && a != b
    requires sep != "" && sep[0] == ':'
    ensures var segs := [Lit(lit), Hole(a, false), Lit(sep), Hole(b, true)];
      WellFormed(segs) && Separated(segs) && EndsWithLastGroup(segs) && Names(segs) == {a, b}
  {
    var segs := [Lit(lit), Hole(a, false), Lit(sep), Hole(b, true)];
    assert segs[1..] == [Hole(a, false), Lit(sep), Hole(b, true)];
    assert segs[2..] == [Lit(sep), Hole(b, true)];
    assert segs[3..] == [Hole(b, true)];
    assert segs[1..][1..] == segs[2..] && segs[2..][1..] == segs[3..] && segs[3..][1..] == [];
    assert Names(segs[3..]) == {b};
    assert Names(segs[2..]) == {b};
    assert Names(segs[1..]) == {a, b};
    assert DistinctNames(segs[3..]);
    assert DistinctNames(segs[2..]);
    assert a !in Names(segs[1..][1..]);
    assert DistinctNames(segs[1..]);
    assert Separated(segs[3..]) && Separated(segs[2..]) && Separated(segs[1..]);
  }

  /** The values of a two-group key fit their groups and render back to the key. */
  lemma {:induction false} TwoGroupRender(lit: string, a: string, x: string, sep: string, b: string, y: string)
    requires a != b && x != "" && ':' !in x && '\n' !in y
    ensures var segs := [Lit(lit), Hole(a, false), Lit(sep), Hole(b, true)];
      var vals := map[a := x, b := y];
      Fits(segs, vals) && Render(segs, vals) == lit + x + sep + y
  {
    var segs := [Lit(lit), Hole(a, false), Lit(sep), Hole(b, true)];
    var vals := map[a := x, b := y];
    assert segs[1..][1..] == segs[2..] && segs[2..][1..] == segs[3..] && segs[3..][1..] == [];
    assert Fits(segs[3..], vals) && Fits(segs[2..], vals) && Fits(segs[1..], vals);
    assert Render(segs[3..], vals) == y + "";
    assert Render(segs[2..], vals) == sep + (y + "");
    assert Render(segs[1..], vals) == x + (sep + (y + ""));
    assert Render(segs, vals) == lit + (x + (sep + (y + "")));
  }

  /**
   * Keys of the shape `<lit><x><sep><y>` parse under `<lit>{<a>}<sep>{<b>}`
   * into `{a: x, b: y}`, as long as `x` is a non-empty run without `:`.
   */
  lemma {:induction false} TwoGroupKeyParts(lit: string, a: string, x: string, sep: string, b: string, y: string)
    requires '{' !in lit && '{' !in sep && '{' !in a + b && '}' !in a + b
    requires Identifier(a) && Identifier(b) && a != b
    requires sep != "" && sep[0] == ':'
    requires x != "" && ':' !in x && '\n' !in y
    ensures KeyParts(lit + x + sep + y, lit + "{" + a + "}" + sep + "{" + b + "}") == Ok(Some(map[a := x, b := y]))
  {
    assert '{' !in a && '{' !in b && '}' !in a && '}' !in b by {
      assert forall c :: c in a ==> c in a + b;
      assert forall c :: c in b ==> c in a + b;
    }
    var pattern := lit + "{" + a + "}" + sep + "{" + b + "}";
    CompileTwoGroups(lit, a, sep, b);
    assert '{' in pattern by { assert pattern[|lit|] == '{'; }
    TwoGroupSegsShape(lit, a, sep, b);
    TwoGroupRender(lit, a, x, sep, b, y);
    var vals := map[a := x, b := y];
    assert vals.Keys == {a, b};
    ParseRecoversParts(pattern, vals, "");
    assert lit + x + sep + y + "" == lit + x + sep + y;
  }

  /** The bubble key `bubbleId:abc123:conv456` yields both of its ids. */
  lemma BubbleKeyParts()
    ensures KeyParts("bubbleId:abc123:conv456", "bubbleId:{bubble_id}:{conversation_id}")
         == Ok(Some(map["bubble_id" := "abc123", "conversation_id" := "conv456"]))
  {
    BubbleNames();
    TwoGroupKeyParts("bubbleId:", "bubble_id", "abc123", ":", "conversation_id", "conv456");
    BubbleStrings();
  }

  lemma BubbleNames()
    ensures Identifier("bubble_id") && Identifier("conversation_id")
    ensures '{' !in "bubble_id" + "conversation_id" && '}' !in "bubble_id" + "conversation_id"
  {
  }

  lemma BubbleStrings()
    ensures "bubbleId:" + "abc123" + ":" + "conv456" == "bubbleId:abc123:conv456"
    ensures "bubbleId:" + "{" + "bubble_id" + "}" + ":" + "{" + "conversation_id" + "}"
         == "bubbleId:{bubble_id}:{conversation_id}"
  {
  }

  /** A key with fewer colons than the pattern's literals never matches. */
  lemma {:induction false} ShortKeyNoMatch(key: string, pattern: string)
    requires Colons(key) < LiteralColons(Compile(pattern))
    ensures KeyParts(key, pattern).Ok? ==> KeyParts(key, pattern).value.None?
  {
    var parts := Split(pattern, '{');
    if |parts| == 1 {
      assert Compile(pattern) == [Lit(pattern)];
      assert LiteralColons(Compile(pattern)) == Colons(pattern) + LiteralColons([]);
    } else if Match(Compile(pattern), key).Some? {
      MatchNeedsColons(Compile(pattern), key);
    }
  }

  /** `bubbleId:abc` lacks the conversation id, so it does not parse. */
  lemma BubbleKeyTooShort()
    ensures KeyParts("bubbleId:abc", "bubbleId:{bubble_id}:{conversation_id}") == Ok(None)
  {
    BubbleNames();
    BubbleStrings();
    var segs := [Lit("bubbleId:"), Hole("bubble_id", false), Lit(":"), Hole("conversation_id", true)];
    CompileTwoGroups("bubbleId:", "bubble_id", ":", "conversation_id");
    TwoGroupSegsShape("bubbleId:", "bubble_id", ":", "conversation_id");
    BubbleColons(segs);
    ShortKeyNoMatch("bubbleId:abc", "bubbleId:{bubble_id}:{conversation_id}");
  }

  lemma BubbleColons(segs: seq<Seg>)
    requires segs == [Lit("bubbleId:"), Hole("bubble_id", false), Lit(":"), Hole("conversation_id", true)]
    ensures LiteralColons(segs) == 2 && Colons("bubbleId:abc") == 1
  {
    BubbleLiteralColons(segs);
    ShortKeyColons();
  }

  lemma BubbleLiteralColons(segs: seq<Seg>)
    requires segs == [Lit("bubbleId:"), Hole("bubble_id", false), Lit(":"), Hole("conversation_id", true)]
    ensures LiteralColons(segs) == 2
  {
    hide *;
    assert segs[1..][1..] == segs[2..] && segs[2..][1..] == segs[3..] && segs[3..][1..] == [];
    LiteralColonsStep(segs);
    LiteralColonsStep(segs[1..]);
    LiteralColonsStep(segs[2..]);
    LiteralColonsStep(segs[3..]);
    LiteralColonsStep([]);
    OneColon(":", "", "");
    OneColon("bubbleId:", "bubbleId", "");
  }

  lemma ShortKeyColons()
    ensures Colons("bubbleId:abc") == 1
  {
    OneColon("bubbleId:abc", "bubbleId", "abc");
  }

  /** A string made of two colon-free halves around one colon has one colon. */
  lemma OneColon(s: string, x: string, y: string)
    requires s == x + ":" + y && ':' !in x && ':' !in y
    ensures Colons(s) == 1
  {
    ColonsAppend(x + ":", y);
    ColonsAppend(x, ":");
    NoColons(x);
    NoColons(y);
  }

  lemma {:induction false} NoColons(s: string)
    requires ':' !in s
    ensures Colons(s) == 0
  {
    if s != [] {
      assert ':' !in s[1..] by { assert forall c :: c in s[1..] ==> c in s; }
      NoColons(s[1..]);
    }
  }

  /** The last group also takes any further colons: `bubbleId:a:b:c` has conversation id `b:c`. */
  lemma BubbleLastGroupTakesColons()
    ensures KeyParts("bubbleId:a:b:c", "bubbleId:{bubble_id}:{conversation_id}")
         == Ok(Some(map["bubble_id" := "a", "conversation_id" := "b:c"]))
  {
    BubbleNames();
    LongKeyStrings();
    TwoGroupKeyParts("bubbleId:", "bubble_id", "a", ":", "conversation_id", "b:c");
    BubbleStrings();
  }

  lemma LongKeyStrings()
    ensures ':' !in "a" && '\n' !in "b:c"
    ensures "bubbleId:" + "a" + ":" + "b:c" == "bubbleId:a:b:c"
  {
  }

  /**
   * A trailing `{`-part without `}` adds nothing, and the group before it is
   * then not the final one: it matches `[^:]+`, not `.*`.
   */
  lemma {:induction false} CompileUnclosedLast(lit: string, a: string, c: string)
    requires '{' !in lit && '{' !in a && '}' !in a && '{' !in c && '}' !in c
    ensures Compile(lit + "{" + a + "}" + "{" + c) == [Lit(lit), Hole(a, false)]
  {
    var pattern := lit + "{" + a + "}" + "{" + c;
    var p1 := a + "}";
    assert '{' !in p1;
    assert pattern == lit + ['{'] + (p1 + ['{'] + c);
    TwoSplits(lit, p1, c);
    CompileOfThree(pattern, lit, p1, c);
    PartSegsOf(a, "", false);
    assert a + "}" + "" == p1;
    assert IndexOf(c, '}').None?;
  }

  /** Under `a{b}{c` the key `ax:y` gives `b = x`: the `{c` is ignored and the `:y` after the match is tolerated. */
  lemma UnclosedPartExample()
    ensures KeyParts("ax:y", "a{b}{c") == Ok(Some(map["b" := "x"]))
  {
    hide Split, IndexOf, Segs, Compile, KeyParts, Match, Backtrack, Run, PartSegs;
    UnclosedStrings();
    CompileUnclosedLast("a", "b", "c");
    var segs := [Lit("a"), Hole("b", false)];
    KeyPartsCompiled("ax:y", "a{b}{c");
    assert WellFormed(segs) by {
      assert segs[1..] == [Hole("b", false)] && segs[1..][1..] == [];
      assert Identifier("b");
    }
    UnclosedMatch(segs);
  }

  /** A pattern that compiles to more than its own literal goes through the matcher. */
  lemma KeyPartsCompiled(key: string, pattern: string)
    requires Compile(pattern) != [Lit(pattern)]
    ensures KeyParts(key, pattern) == if WellFormed(Compile(pattern)) then Ok(Match(Compile(pattern), key)) else Err(RegexError)
  {
  }

  lemma UnclosedStrings()
    ensures "a" + "{" + "b" + "}" + "{" + "c" == "a{b}{c"
  {
  }

  lemma UnclosedMatch(segs: seq<Seg>)
    requires segs == [Lit("a"), Hole("b", false)]
    ensures Match(segs, "ax:y") == Some(map["b" := "x"])
  {
    var s := "ax:y"[1..];
    assert "a" <= "ax:y" && s == "x:y";
    assert segs[1..] == [Hole("b", false)] && segs[1..][1..] == [];
    assert Run(s, false) == 1 by {
      assert s[1..] == ":y";
      assert Run(s[1..], false) == 0;
    }
    assert s[1..] == ":y" && s[..1] == "x";
    assert Match([], s[1..]) == Some(map[]);
    assert Backtrack("b", [], s, 1, 1) == Some(map["b" := "x"]);
  }
}
