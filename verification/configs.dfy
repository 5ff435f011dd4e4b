/**
 * `SILAutoDiffIndices` and `AutoDiffConfig`, and their textual forms.
 *
 * `SILAutoDiffIndices::print` writes both index lists itself, so the model
 * gives its text exactly and proves that a strict reader (decimal numerals
 * without leading zeros, single spaces, the fixed frame) reads it back, and
 * that the printed text is the only one it reads back as that pair.
 * `AutoDiffConfig::print` delegates to `IndexSubset::print` and
 * `GenericSignature::print`, whose formats are not part of this model: they
 * are parameters here.
 */
module Configs {
  import opened Types
  import opened IndexSubsets
  import opened Numerals

  /** Lowered parameter and result indices of one differentiability configuration. */
  datatype SILAutoDiffIndices = SILAutoDiffIndices(parameters: IndexSubset, results: IndexSubset)

  /** The key identifying one differentiability witness; equality is structural. */
  datatype AutoDiffConfig = AutoDiffConfig(
    parameterIndices: IndexSubset,
    resultIndices: IndexSubset,
    derivativeGenericSignature: Option<GenericSignature>)

  /** `AutoDiffConfig::getSILAutoDiffIndices`. */
  function GetSILAutoDiffIndices(c: AutoDiffConfig): (r: SILAutoDiffIndices)
    ensures r.parameters == c.parameterIndices && r.results == c.resultIndices
  {
    SILAutoDiffIndices(c.parameterIndices, c.resultIndices)
  }

  /** The indices in order, each in decimal, separated by single spaces (`interleave`). */
  function JoinIndices(l: seq<nat>): string
  {
    if l == [] then ""
    else if |l| == 1 then NatToString(l[0])
    else NatToString(l[0]) + " " + JoinIndices(l[1..])
  }

  /**
   * `SILAutoDiffIndices::print`. The printed form reads back to the ascending
   * parameter and result indices.
   */
  function PrintSILIndices(x: SILAutoDiffIndices): (r: string)
    requires x.parameters.Valid() && x.results.Valid()
    ensures ReadSILIndices(r) == Some((x.parameters.GetIndices(), x.results.GetIndices()))
  {
    var p := JoinIndices(x.parameters.GetIndices());
    var q := JoinIndices(x.results.GetIndices());
    JoinIndicesCharacters(x.parameters.GetIndices());
    ReadJoinIndices(x.parameters.GetIndices());
    ReadJoinIndices(x.results.GetIndices());
    ReadFrame(p, q);
    "(parameters=(" + p + ") results=(" + q + "))"
  }

  /**
   * `AutoDiffConfig::print`, given the printers of index subsets and generic
   * signatures. The text is `(parameters=<P> results=<R>` followed by
   * ` where=<S>)` when there is a derivative signature and by `)` alone when
   * there is none.
   */
  function PrintConfig(c: AutoDiffConfig, printSubset: IndexSubset -> string,
                       printSignature: GenericSignature -> string): (r: string)
    ensures var p := "(parameters=" + printSubset(c.parameterIndices) + " ";
            var q := "results=" + printSubset(c.resultIndices);
            && |p| + |q| < |r|
            && r[..|p|] == p
            && r[|p|..|p| + |q|] == q
            && r[|r| - 1] == ')'
            && (c.derivativeGenericSignature.None? ==> |r| == |p| + |q| + 1)
            && (c.derivativeGenericSignature.Some? ==>
                  var w := " where=" + printSignature(c.derivativeGenericSignature.value) + ")";
                  |r| == |p| + |q| + |w| && r[|r| - |w|..] == w)
  {
    var open := "(parameters=" + printSubset(c.parameterIndices) + " ";
    var results := "results=" + printSubset(c.resultIndices);
    var close := if c.derivativeGenericSignature.Some?
                 then " where=" + printSignature(c.derivativeGenericSignature.value) + ")"
                 else ")";
    Framed(open, results, close);
    open + results + close
  }

  /** A text assembled from three pieces holds each of them at its place. */
  lemma Framed(open: string, middle: string, close: string)
    requires |close| > 0
    ensures var r := open + middle + close;
            && |r| == |open| + |middle| + |close|
            && r[..|open|] == open
            && r[|open|..|open| + |middle|] == middle
            && r[|r| - |close|..] == close
            && r[|r| - 1] == close[|close| - 1]
  {
  }

  // Reading printed index lists back.

  /** The position of the first `c` in `s`, or `|s|` when there is none. */
  function FirstIndexOf(s: string, c: char): (k: nat)
    ensures k <= |s|
    ensures forall j :: 0 <= j < k ==> s[j] != c
    ensures k < |s| ==> s[k] == c
  {
    if s == [] || s[0] == c then 0 else 1 + FirstIndexOf(s[1..], c)
  }

  /**
   * Splits at single spaces and reads every word as a decimal numeral. A word
   * that is empty, holds a non-digit or has a leading zero is rejected, and so
   * is a space with nothing after it.
   */
  function ReadIndexList(s: string): Option<seq<nat>>
    decreases |s|
  {
    if s == [] then Some([])
    else
      var k := FirstIndexOf(s, ' ');
      var v := ReadNumeral(s[..k]);
      if v.None? then None
      else if k == |s| then Some([v.value])
      else
        var rest := ReadIndexList(s[k + 1..]);
        if rest.None? || rest.value == [] then None
        else Some([v.value] + rest.value)
  }

  /** A decimal numeral without leading zeros, as the printer writes one. */
  function ReadNumeral(word: string): Option<nat>
  {
    if CanonicalDecimal(word) then Some(ValueInRadix(word, 10)) else None
  }

  /** `ReadNumeral` reads back what `NatToString` prints, and accepts nothing else. */
  lemma ReadNumeralSpelling(n: nat, word: string)
    ensures ReadNumeral(NatToString(n)) == Some(n)
    ensures ReadNumeral(word).Some? ==> NatToString(ReadNumeral(word).value) == word
  {
    NatToStringDigits(n);
    NatToStringCanonical(n);
    if ReadNumeral(word).Some? {
      CanonicalDecimalPrints(word);
    }
  }

  /** Reads the text of `PrintSILIndices` back into its two index lists. */
  function ReadSILIndices(s: string): Option<(seq<nat>, seq<nat>)>
  {
    if |s| < 15 || s[..13] != "(parameters=(" || s[|s| - 2..] != "))" then None
    else
      var body := s[13..|s| - 2];
      var k := FirstIndexOf(body, ')');
      if k + 11 <= |body| && body[k..k + 11] == ") results=(" then
        var parameters := ReadIndexList(body[..k]);
        var results := ReadIndexList(body[k + 11..]);
        if parameters.Some? && results.Some? then Some((parameters.value, results.value)) else None
      else None
  }

  predicate Excludes(s: string, c: char) {
    forall j :: 0 <= j < |s| ==> s[j] != c
  }

  lemma FirstIndexOfAfter(a: string, c: char, b: string)
    requires Excludes(a, c)
    ensures FirstIndexOf(a + [c] + b, c) == |a|
  {
    var s := a + [c] + b;
    var k := FirstIndexOf(s, c);
    assert s[|a|] == c;
    assert forall j :: 0 <= j < |a| ==> s[j] == a[j];
  }

  lemma {:induction false} JoinIndicesCharacters(l: seq<nat>)
    ensures Excludes(JoinIndices(l), ')')
    ensures |l| == 1 ==> Excludes(JoinIndices(l), ' ')
  {
    if |l| > 1 {
      JoinIndicesCharacters(l[1..]);
    }
  }

  /** Reading a joined index list gives back the list. */
  lemma {:induction false} ReadJoinIndices(l: seq<nat>)
    ensures ReadIndexList(JoinIndices(l)) == Some(l)
  {
    if |l| == 1 {
      ReadJoinOne(l);
    } else if |l| > 1 {
      ReadJoinIndices(l[1..]);
      ReadJoinMore(l);
    }
  }

  /** The numeral printed for one index: no space in it, and read back as the index. */
  lemma PrintedNumeral(n: nat)
    ensures Excludes(NatToString(n), ' ') && ReadNumeral(NatToString(n)) == Some(n)
  {
    NatToStringDigits(n);
    ReadNumeralSpelling(n, NatToString(n));
  }

  lemma ReadJoinOne(l: seq<nat>)
    requires |l| == 1
    ensures ReadIndexList(JoinIndices(l)) == Some(l)
  {
    var first := NatToString(l[0]);
    PrintedNumeral(l[0]);
    assert JoinIndices(l) == first;
    ReadIndexListLast(first);
    assert l == [l[0]];
  }

  lemma ReadJoinMore(l: seq<nat>)
    requires |l| > 1 && ReadIndexList(JoinIndices(l[1..])) == Some(l[1..])
    ensures ReadIndexList(JoinIndices(l)) == Some(l)
  {
    var first, rest := NatToString(l[0]), JoinIndices(l[1..]);
    PrintedNumeral(l[0]);
    assert JoinIndices(l) == first + [' '] + rest;
    ReadIndexListMore(first, rest);
    assert l == [l[0]] + l[1..];
  }

  /** `ReadIndexList` on a single word. */
  lemma ReadIndexListLast(w: string)
    requires w != [] && Excludes(w, ' ')
    ensures ReadIndexList(w) == if ReadNumeral(w).Some? then Some([ReadNumeral(w).value]) else None
  {
    assert FirstIndexOf(w, ' ') == |w|;
    assert w[..|w|] == w;
  }

  /** `ReadIndexList` on a word, a space and the rest of the text. */
  lemma ReadIndexListMore(w: string, rest: string)
    requires Excludes(w, ' ')
    ensures var v, tail := ReadNumeral(w), ReadIndexList(rest);
            ReadIndexList(w + [' '] + rest)
            == if v.None? || tail.None? || tail.value == [] then None else Some([v.value] + tail.value)
  {
    FirstIndexOfAfter(w, ' ', rest);
    var s := w + [' '] + rest;
    assert s[..|w|] == w;
    assert s[|w| + 1..] == rest;
  }

  /** The frame around two lists without a closing parenthesis in the first is read back as the two lists. */
  lemma ReadFrame(p: string, r: string)
    requires Excludes(p, ')')
    requires ReadIndexList(p).Some? && ReadIndexList(r).Some?
    ensures ReadSILIndices("(parameters=(" + p + ") results=(" + r + "))")
            == Some((ReadIndexList(p).value, ReadIndexList(r).value))
  {
    FrameSlices(p, r);
    BodySlices(p, r);
  }

  lemma FrameSlices(p: string, r: string)
    ensures var s := "(parameters=(" + p + ") results=(" + r + "))";
            && |s| >= 15
            && s[..13] == "(parameters=("
            && s[|s| - 2..] == "))"
            && s[13..|s| - 2] == p + [')'] + (" results=(" + r)
  {
    var s := "(parameters=(" + p + ") results=(" + r + "))";
    assert s == "(parameters=(" + (p + [')'] + (" results=(" + r)) + "))";
  }

  lemma BodySlices(p: string, r: string)
    requires Excludes(p, ')')
    ensures var body := p + [')'] + (" results=(" + r);
            && FirstIndexOf(body, ')') == |p|
            && |p| + 11 <= |body|
            && body[..|p|] == p
            && body[|p|..|p| + 11] == ") results=("
            && body[|p| + 11..] == r
  {
    FirstIndexOfAfter(p, ')', " results=(" + r);
    var body := p + [')'] + (" results=(" + r);
    assert body == p + (") results=(" + r);
  }

  /**
   * The reader accepts only joined lists: a text it reads as `l` is the text
   * `JoinIndices` prints for `l`, so each list has one accepted spelling.
   */
  lemma {:induction false} ReadIndexListSpelling(s: string)
    requires ReadIndexList(s).Some?
    ensures JoinIndices(ReadIndexList(s).value) == s
    decreases |s|
  {
    if s != [] {
      var k := FirstIndexOf(s, ' ');
      var word := s[..k];
      assert Excludes(word, ' ');
      if k == |s| {
        assert word == s;
        ReadIndexListLast(s);
      } else {
        var rest := s[k + 1..];
        assert s == word + [' '] + rest;
        ReadIndexListMore(word, rest);
        ReadIndexListSpelling(rest);
      }
      var l := ReadIndexList(s).value;
      ReadNumeralSpelling(l[0], word);
    }
  }

  /** A text in the frame of `ReadSILIndices` is the frame around the two slices of its body. */
  lemma Reframe(s: string, body: string, k: nat)
    requires |s| >= 15 && s[..13] == "(parameters=(" && s[|s| - 2..] == "))" && body == s[13..|s| - 2]
    requires k + 11 <= |body| && body[k..k + 11] == ") results=("
    ensures s == "(parameters=(" + body[..k] + ") results=(" + body[k + 11..] + "))"
  {
    assert body == body[..k] + body[k..k + 11] + body[k + 11..];
    assert s == s[..13] + body + s[|s| - 2..];
  }

  /**
   * Only the printed form of a pair of lists reads back as that pair: a text
   * that `ReadSILIndices` accepts is `(parameters=(P) results=(R))` with both
   * lists joined as `PrintSILIndices` joins them.
   */
  lemma ReadSILIndicesSpelling(s: string)
    requires ReadSILIndices(s).Some?
    ensures var v := ReadSILIndices(s).value;
            s == "(parameters=(" + JoinIndices(v.0) + ") results=(" + JoinIndices(v.1) + "))"
  {
    var body := s[13..|s| - 2];
    var k := FirstIndexOf(body, ')');
    var p, r := body[..k], body[k + 11..];
    assert ReadSILIndices(s).value == (ReadIndexList(p).value, ReadIndexList(r).value);
    ReadIndexListSpelling(p);
    ReadIndexListSpelling(r);
    Reframe(s, body, k);
  }

  /** At most one text reads back as a given pair, and it is the printed one. */
  lemma ReadSILIndicesUnique(s: string, t: string, x: SILAutoDiffIndices)
    requires x.parameters.Valid() && x.results.Valid()
    requires ReadSILIndices(s) == Some((x.parameters.GetIndices(), x.results.GetIndices()))
    ensures s == PrintSILIndices(x)
    ensures ReadSILIndices(t) == ReadSILIndices(s) ==> t == s
  {
    ReadSILIndicesSpelling(s);
    if ReadSILIndices(t) == ReadSILIndices(s) {
      ReadSILIndicesSpelling(t);
    }
  }

  /** Two index pairs print alike exactly when they have the same members. */
  lemma PrintSILIndicesInjective(x: SILAutoDiffIndices, y: SILAutoDiffIndices)
    requires x.parameters.Valid() && x.results.Valid()
    requires y.parameters.Valid() && y.results.Valid()
    ensures PrintSILIndices(x) == PrintSILIndices(y) <==>
              x.parameters.indices == y.parameters.indices && x.results.indices == y.results.indices
  {
    if PrintSILIndices(x) == PrintSILIndices(y) {
      assert x.parameters.GetIndices() == y.parameters.GetIndices();
      assert x.results.GetIndices() == y.results.GetIndices();
    }
    if x.parameters.indices == y.parameters.indices && x.results.indices == y.results.indices {
      IndicesFromSameMembers(x.parameters, y.parameters, 0);
      IndicesFromSameMembers(x.results, y.results, 0);
    }
  }

  lemma {:induction false} IndicesFromSameMembers(a: IndexSubset, b: IndexSubset, lo: nat)
    requires a.Valid() && b.Valid() && a.indices == b.indices
    ensures IndicesFrom(a, lo) == IndicesFrom(b, lo)
    decreases a.capacity + b.capacity - 2 * lo
  {
    if lo < a.capacity && lo < b.capacity {
      IndicesFromSameMembers(a, b, lo + 1);
    } else {
      IndicesFromFacts(a, lo);
      IndicesFromFacts(b, lo);
      if lo < a.capacity {
        IndicesFromNone(a, lo);
      }
      if lo < b.capacity {
        IndicesFromNone(b, lo);
      }
    }
  }

  lemma {:induction false} IndicesFromNone(s: IndexSubset, lo: nat)
    requires s.Valid() && forall i :: i in s.indices ==> i < lo
    ensures IndicesFrom(s, lo) == []
    decreases s.capacity - lo
  {
    if lo < s.capacity {
      IndicesFromNone(s, lo + 1);
    }
  }

  /**
   * Giving a configuration a derivative signature `sig` inserts
   * ` where=<sig>` just before the closing parenthesis of its text without
   * one, and changes nothing else.
   */
  lemma PrintConfigWhereClause(c: AutoDiffConfig, sig: GenericSignature, printSubset: IndexSubset -> string,
                               printSignature: GenericSignature -> string)
    ensures var bare := PrintConfig(c.(derivativeGenericSignature := None), printSubset, printSignature);
            var full := PrintConfig(c.(derivativeGenericSignature := Some(sig)), printSubset, printSignature);
            && |bare| > 0 && bare[|bare| - 1] == ')'
            && full == bare[..|bare| - 1] + " where=" + printSignature(sig) + ")"
            && |full| == |bare| + 7 + |printSignature(sig)|
  {
    var head := "(parameters=" + printSubset(c.parameterIndices) + " " + ("results=" + printSubset(c.resultIndices));
    var bare := PrintConfig(c.(derivativeGenericSignature := None), printSubset, printSignature);
    assert bare == head + ")";
    assert bare[..|bare| - 1] == head;
  }
}
