/**
 * The query string `View.getQueryString` renders from the option map: every
 * entry whose value is non-null and non-empty becomes one `key=value` pair,
 * the pairs are joined by `&`, and an empty result is reported as null.
 *
 * `HashMap` leaves its iteration order unspecified, so the order in which the
 * entries are visited is a parameter: any sequence that lists each key of the
 * map exactly once.
 */
module Query {
  import opened Wrappers

  /** The option map: option name to a possibly null string value. */
  type Params = map<string, Option<string>>

  /** An entry is rendered only when its value is non-null and non-empty. */
  predicate Rendered(v: Option<string>) {
    v.Some? && v.value != ""
  }

  predicate Distinct(s: seq<string>) {
    forall i, j :: 0 <= i < j < |s| ==> s[i] != s[j]
  }

  /** `order` lists every key of `m` exactly once: one possible iteration order of its entry set. */
  predicate Enumerates(order: seq<string>, m: Params) {
    && Distinct(order)
    && (forall k :: k in order ==> k in m)
    && (forall k :: k in m ==> k in order)
  }

  /** The keys visited in `order` whose entries are rendered, in visiting order. */
  function RenderedKeys(m: Params, order: seq<string>): (ks: seq<string>)
    ensures forall k :: k in ks <==> k in order && k in m && Rendered(m[k])
    ensures Distinct(order) ==> Distinct(ks)
  {
    if order == [] then []
    else
      var k := order[|order| - 1];
      RenderedKeys(m, order[..|order| - 1]) + (if k in m && Rendered(m[k]) then [k] else [])
  }

  function Pair(key: string, value: string): string {
    key + "=" + value
  }

  /** The `key=value` pairs the renderer emits, in visiting order. */
  function Segments(m: Params, order: seq<string>): (segs: seq<string>)
    ensures forall i :: 0 <= i < |segs| ==> segs[i] != ""
  {
    if order == [] then []
    else
      var k := order[|order| - 1];
      Segments(m, order[..|order| - 1]) + (if k in m && Rendered(m[k]) then [Pair(k, m[k].value)] else [])
  }

  /** The pairs, separated by `&`: a separator between two pairs and nowhere else. */
  function Join(segs: seq<string>): string {
    if |segs| == 0 then ""
    else if |segs| == 1 then segs[0]
    else Join(segs[..|segs| - 1]) + "&" + segs[|segs| - 1]
  }

  /** The query string, or `None` (Java's `null`) when no pair is emitted. */
  function QueryString(m: Params, order: seq<string>): Option<string> {
    var segs := Segments(m, order);
    if segs == [] then None else Some(Join(segs))
  }

  /** Splits a string at every `&`; the inverse of `Join` on `&`-free pairs. */
  function Split(s: string): (parts: seq<string>)
    ensures |parts| > 0
  {
    if s == [] then [""]
    else
      var rest := Split(s[1..]);
      if s[0] == '&' then [""] + rest else [[s[0]] + rest[0]] + rest[1..]
  }

  /** The i-th emitted pair is the pair of the i-th rendered key: one pair per rendered entry. */
  lemma {:induction false} SegmentsAreRenderedPairs(m: Params, order: seq<string>)
    ensures var ks, segs := RenderedKeys(m, order), Segments(m, order);
      |segs| == |ks| &&
      forall i :: 0 <= i < |ks| ==> ks[i] in m && segs[i] == Pair(ks[i], m[ks[i]].value)
  {
    if order != [] {
      SegmentsAreRenderedPairs(m, order[..|order| - 1]);
    }
  }

  /** A string without separators stays in one piece. */
  lemma {:induction false} SplitWithoutSeparator(s: string)
    requires '&' !in s
    ensures Split(s) == [s]
  {
    if s != [] {
      assert s[0] in s;
      SplitWithoutSeparator(s[1..]);
      assert [s[0]] + s[1..] == s;
    }
  }

  /** Splitting at a separator splits the two sides independently. */
  lemma {:induction false} SplitAtSeparator(a: string, b: string)
    ensures Split(a + "&" + b) == Split(a) + Split(b)
  {
    var s := a + "&" + b;
    if a == [] {
      assert s[1..] == b;
    } else {
      assert s[1..] == a[1..] + "&" + b;
      SplitAtSeparator(a[1..], b);
    }
  }

  /** Joining `&`-free pairs and splitting the result gives the pairs back. */
  lemma {:induction false} SplitJoin(segs: seq<string>)
    requires |segs| > 0
    requires forall i :: 0 <= i < |segs| ==> '&' !in segs[i]
    ensures Split(Join(segs)) == segs
  {
    if |segs| == 1 {
      SplitWithoutSeparator(segs[0]);
    } else {
      var init, last := segs[..|segs| - 1], segs[|segs| - 1];
      SplitJoin(init);
      SplitAtSeparator(Join(init), last);
      SplitWithoutSeparator(last);
      assert init + [last] == segs;
    }
  }

  /** The result is null exactly when no entry has a non-null, non-empty value. */
  lemma QueryStringAbsentIff(m: Params, order: seq<string>)
    requires Enumerates(order, m)
    ensures QueryString(m, order).None? <==> forall k :: k in m ==> !Rendered(m[k])
  {
    var ks := RenderedKeys(m, order);
    SegmentsAreRenderedPairs(m, order);
    if Segments(m, order) == [] {
      forall k | k in m
        ensures !Rendered(m[k])
      {
        assert k !in ks;
      }
    } else {
      assert ks[0] in m && Rendered(m[ks[0]]);
    }
  }

  /**
   * When no key or value contains `&`, the query string splits at `&` into
   * exactly the emitted pairs, so a separator stands between two pairs and
   * nowhere else.
   */
  lemma QueryStringSplits(m: Params, order: seq<string>)
    requires forall k :: k in m && Rendered(m[k]) ==> '&' !in k && '&' !in m[k].value
    ensures QueryString(m, order).Some? ==> Split(QueryString(m, order).value) == Segments(m, order)
  {
    var ks, segs := RenderedKeys(m, order), Segments(m, order);
    if segs != [] {
      SegmentsAreRenderedPairs(m, order);
      forall i | 0 <= i < |segs|
        ensures '&' !in segs[i]
      {
        assert ks[i] in ks;
        assert segs[i] == ks[i] + "=" + m[ks[i]].value;
      }
      SplitJoin(segs);
    }
  }

  /**
   * Values are appended without URL-encoding, so the `&`-free requirement of
   * `QueryStringSplits` is needed: a single option whose value is `&` (as after
   * `setStartKey("&")`) renders `startkey=&`, which ends in a separator and
   * splits into two pieces instead of one pair.
   */
  lemma AmpersandValueBreaksSplit(key: string)
    requires '&' !in key
    ensures var m: Params := map[key := Some("&")];
      && QueryString(m, [key]) == Some(key + "=&")
      && Split(key + "=&") == [key + "=", ""]
      && Split(key + "=&") != Segments(m, [key])
  {
    var m: Params := map[key := Some("&")];
    var order := [key];
    assert Rendered(m[key]);
    assert Segments(m, order[..0]) == [];
    assert Pair(key, "&") == key + "=&";
    assert Segments(m, order) == [key + "=&"];
    assert '&' !in key + "=" by {
      forall i | 0 <= i < |key + "="|
        ensures (key + "=")[i] != '&'
      {
        if i < |key| {
          assert (key + "=")[i] == key[i];
        }
      }
    }
    SplitAtSeparator(key + "=", "");
    SplitWithoutSeparator(key + "=");
    assert key + "=" + "&" + "" == key + "=&";
  }
}
