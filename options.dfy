/**
 * What one setter call of `View` does to the option map, as a value: the
 * option it names and what it writes there (a value, possibly null, or a
 * removal). The class `CouchView.View` performs these calls in place; the
 * lemmas here state what any call, and any sequence of calls, leaves behind.
 */
module ViewOptions {
  import opened Wrappers
  import opened Decimal
  import Query

  type Params = Query.Params

  /** Options stored only while true; setting one to false removes it. */
  const BooleanOptions: set<string> := {"descending", "group", "update"}

  /** Every option name a setter writes. */
  const KnownOptions: set<string> := {"key", "startkey", "endkey", "limit", "skip"} + BooleanOptions

  /** What a setter does to its option: `put` a value (Java may store null) or `remove` it. */
  datatype Write = Put(value: Option<string>) | Remove

  /** One call of a public setter of `View`, with its argument. */
  datatype Setter =
    | Key(key: string)
    | StartKey(startKey: Option<string>)
    | SingleStartKey(singleStart: string)
    | EndKey(endKey: Option<string>)
    | SingleEndKey(singleEnd: string)
    | Count(count: Int32)      // deprecated alias of Limit
    | Limit(limit: Int32)
    | Reverse(reverse: bool)   // deprecated alias of Descending
    | Descending(descending: bool)
    | Group(group: bool)
    | Skip(skip: Int32)
    | Update(update: bool)
  {
    /** The one option the call touches. */
    function OptionName(): (name: string)
      ensures name in KnownOptions
      ensures name in BooleanOptions <==> IsBoolean()
    {
      match this
      case Key(_) => "key"
      case StartKey(_) | SingleStartKey(_) => "startkey"
      case EndKey(_) | SingleEndKey(_) => "endkey"
      case Count(_) | Limit(_) => "limit"
      case Reverse(_) | Descending(_) => "descending"
      case Group(_) => "group"
      case Skip(_) => "skip"
      case Update(_) => "update"
    }

    predicate IsBoolean() {
      Reverse? || Descending? || Group? || Update?
    }

    /** The flag a boolean setter is given. */
    function Flag(): bool
      requires IsBoolean()
    {
      match this
      case Reverse(b) => b
      case Descending(b) => b
      case Group(b) => b
      case Update(b) => b
    }

    /** What the call writes under `OptionName()`. */
    function WriteOf(): Write {
      match this
      case Key(k) => Put(Some(QuoteKey(k)))
      case StartKey(v) => Put(v)
      case SingleStartKey(s) => Put(Some(SingleKeyArray(s)))
      case EndKey(v) => Put(v)
      case SingleEndKey(s) => Put(Some(SingleKeyArray(s)))
      case Count(n) => Put(Some(ToDecimal(n as int)))
      case Limit(n) => Put(Some(ToDecimal(n as int)))
      case Skip(n) => Put(Some(ToDecimal(n as int)))
      case Reverse(b) => BooleanWrite(b)
      case Descending(b) => BooleanWrite(b)
      case Group(b) => BooleanWrite(b)
      case Update(b) => BooleanWrite(b)
    }
  }

  predicate StartsWithQuote(s: string) {
    |s| > 0 && s[0] == '\"'
  }

  /** `setKey`: wraps the key in double quotes unless it already starts with one. */
  function QuoteKey(key: string): (r: string)
    ensures StartsWithQuote(r)
    ensures StartsWithQuote(key) ==> r == key
    ensures !StartsWithQuote(key) ==> |r| == |key| + 2 && r[|r| - 1] == '\"' && r[1..|r| - 1] == key
  {
    if StartsWithQuote(key) then key else "\"" + key + "\""
  }

  /** `setSingleStartKey` / `setSingleEndKey`: the one-element JSON array `["s"]`. */
  function SingleKeyArray(s: string): (r: string)
    ensures |r| == |s| + 4
    ensures r[..2] == "[\"" && r[|r| - 2..] == "\"]" && r[2..|r| - 2] == s
  {
    "[\"" + s + "\"]"
  }

  /** `setBooleanParameter`: `String.valueOf(true)` when set, removal when cleared. */
  function BooleanWrite(b: bool): Write {
    if b then Put(Some("true")) else Remove
  }

  /**
   * The option map the source promises: only known options, and a boolean
   * option present only with the value `"true"`.
   */
  predicate WellFormed(m: Params) {
    && (forall k :: k in m ==> k in KnownOptions)
    && (forall p :: p in BooleanOptions && p in m ==> m[p] == Some("true"))
  }

  /** The option map after one setter call. */
  function Apply(m: Params, s: Setter): (r: Params)
    ensures forall k :: k != s.OptionName() ==> (k in r <==> k in m) && (k in r ==> r[k] == m[k])
    ensures s.OptionName() in r <==> s.WriteOf().Put?
    ensures WellFormed(m) ==> WellFormed(r)
  {
    Store(m, s.OptionName(), s.WriteOf())
  }

  /** `put` or `remove` on one option, whatever setter did it. */
  function Store(m: Params, name: string, w: Write): Params {
    match w
    case Put(v) => m[name := v]
    case Remove => m - {name}
  }

  /** The option map after a sequence of setter calls, first call first. */
  function ApplyAll(m: Params, calls: seq<Setter>): Params {
    if calls == [] then m else Apply(ApplyAll(m, calls[..|calls| - 1]), calls[|calls| - 1])
  }

  /** What the last call in `calls` that names option `k` writes, if any does. */
  function LastWrite(calls: seq<Setter>, k: string): Option<Write> {
    if calls == [] then None
    else if calls[|calls| - 1].OptionName() == k then Some(calls[|calls| - 1].WriteOf())
    else LastWrite(calls[..|calls| - 1], k)
  }

  /** Setting the stored (already quoted) key again changes nothing: quoting is idempotent. */
  lemma KeyQuotingIdempotent(m: Params, key: string)
    ensures var r := Apply(m, Key(key));
      r["key"].Some? && Apply(r, Key(r["key"].value)) == r
  {
  }

  /** A single key is stored as the JSON array holding that one string. */
  lemma SingleKeysAreArrays(m: Params, s: string)
    ensures Apply(m, SingleStartKey(s))["startkey"] == Some("[\"" + s + "\"]")
    ensures Apply(m, SingleEndKey(s))["endkey"] == Some("[\"" + s + "\"]")
    ensures Apply(m, SingleStartKey(s)) == Apply(m, StartKey(Some(SingleKeyArray(s))))
    ensures Apply(m, SingleEndKey(s)) == Apply(m, EndKey(Some(SingleKeyArray(s))))
  {
  }

  /** A boolean option is present after its setter exactly when set true, and then holds "true". */
  lemma BooleanPresentIffTrue(m: Params, s: Setter)
    requires s.IsBoolean()
    ensures var r := Apply(m, s);
      (s.OptionName() in r <==> s.Flag()) && (s.Flag() ==> r[s.OptionName()] == Some("true"))
  {
  }

  /** The deprecated setters act exactly as their replacements and write only the new option names. */
  lemma DeprecatedAliases(m: Params, n: Int32, b: bool)
    ensures Apply(m, Count(n)) == Apply(m, Limit(n))
    ensures Apply(m, Reverse(b)) == Apply(m, Descending(b))
    ensures Count(n).OptionName() == "limit" && Reverse(b).OptionName() == "descending"
  {
  }

  /** `setLimit` and `setSkip` store text that reads back as the very number given. */
  lemma NumbersReadBack(m: Params, n: Int32)
    ensures var r := Apply(m, Limit(n));
      r["limit"].Some? && ParseDecimal(r["limit"].value) == Some(n as int)
    ensures var r := Apply(m, Skip(n));
      r["skip"].Some? && ParseDecimal(r["skip"].value) == Some(n as int)
  {
    DecimalRoundTrip(n as int);
  }

  /** Two calls on the same option: the second one wins. */
  lemma LastWriteWins(m: Params, first: Setter, second: Setter)
    requires first.OptionName() == second.OptionName()
    ensures Apply(Apply(m, first), second) == Apply(m, second)
  {
  }

  /** Calls on different options do not interfere: their order does not matter. */
  lemma DistinctOptionsCommute(m: Params, s1: Setter, s2: Setter)
    requires s1.OptionName() != s2.OptionName()
    ensures Apply(Apply(m, s1), s2) == Apply(Apply(m, s2), s1)
  {
    StoresCommute(m, s1.OptionName(), s1.WriteOf(), s2.OptionName(), s2.WriteOf());
  }

  lemma StoresCommute(m: Params, n1: string, w1: Write, n2: string, w2: Write)
    requires n1 != n2
    ensures Store(Store(m, n1, w1), n2, w2) == Store(Store(m, n2, w2), n1, w1)
  {
  }

  /** After any sequence of calls, each option holds what the last call naming it wrote. */
  lemma {:induction false} ApplyAllLastWrite(m: Params, calls: seq<Setter>, k: string)
    ensures var r := ApplyAll(m, calls);
      match LastWrite(calls, k)
      case None => (k in r <==> k in m) && (k in m ==> r[k] == m[k])
      case Some(Put(v)) => k in r && r[k] == v
      case Some(Remove) => k !in r
  {
    if calls != [] {
      ApplyAllLastWrite(m, calls[..|calls| - 1], k);
    }
  }

  /** Any sequence of calls keeps the option map well formed. */
  lemma {:induction false} ApplyAllWellFormed(m: Params, calls: seq<Setter>)
    requires WellFormed(m)
    ensures WellFormed(ApplyAll(m, calls))
  {
    if calls != [] {
      ApplyAllWellFormed(m, calls[..|calls| - 1]);
    }
  }

  /**
   * On a fresh view, after any sequence of calls, the query string has a pair
   * for option `k` exactly when the last call naming `k` stored a non-null,
   * non-empty value.
   */
  lemma RenderedAfterCalls(calls: seq<Setter>, order: seq<string>, k: string)
    requires Query.Enumerates(order, ApplyAll(map[], calls))
    ensures k in Query.RenderedKeys(ApplyAll(map[], calls), order) <==>
      match LastWrite(calls, k)
      case Some(Put(v)) => Query.Rendered(v)
      case _ => false
  {
    ApplyAllLastWrite(map[], calls, k);
  }
}
