/**
 * Kotlin's casts on the values of an engine payload `Map<String, Any>`: the
 * required `as` casts of the Android records, which throw on a missing or
 * wrongly typed value, and the safe `as?` cast with an elvis default.
 */
module KotlinCasts {
  import opened Wrappers
  import opened Json
  import opened Sdk

  /** A value of an engine payload, by its runtime class (boxed `Double`, `Float`, `Int`, …). */
  datatype Boxed =
    | BoxedDouble(d: real)
    | BoxedFloat(f: real)
    | BoxedInt(i: int32)
    | BoxedString(s: string)
    | BoxedOther

  type Payload = map<PayloadKey, Boxed>

  /** The exception a failing `as` cast throws, with the key whose value it cast. */
  datatype CastFailure =
    | NullCast(key: PayloadKey)    // the key is absent: null cannot be cast to a non-null type
    | ClassCast(key: PayloadKey)   // the value has another runtime class

  /** The target class of a required cast. */
  datatype Kind = DoubleKind | FloatKind | IntKind

  predicate HasKind(v: Boxed, kind: Kind) {
    match kind
    case DoubleKind => v.BoxedDouble?
    case FloatKind => v.BoxedFloat?
    case IntKind => v.BoxedInt?
  }

  /** Whether `payload[key] as <kind>` succeeds. */
  predicate Casts(payload: Payload, key: PayloadKey, kind: Kind) {
    key in payload && HasKind(payload[key], kind)
  }

  /** The exception of a cast of `payload[key]` that does not succeed. */
  function FailureOf(payload: Payload, key: PayloadKey): (e: CastFailure)
    ensures e.key == key
    ensures e.NullCast? <==> key !in payload
  {
    if key in payload then ClassCast(key) else NullCast(key)
  }

  /** `payload[key] as Double`. */
  function AsDouble(payload: Payload, key: PayloadKey): (r: Result<real, CastFailure>)
    ensures r.Success? <==> Casts(payload, key, DoubleKind)
    ensures r.Success? ==> payload[key] == BoxedDouble(r.value)
    ensures r.Failure? ==> r.error == FailureOf(payload, key)
  {
    if key in payload && payload[key].BoxedDouble? then Success(payload[key].d)
    else Failure(FailureOf(payload, key))
  }

  /** `payload[key] as Float`. */
  function AsFloat(payload: Payload, key: PayloadKey): (r: Result<real, CastFailure>)
    ensures r.Success? <==> Casts(payload, key, FloatKind)
    ensures r.Success? ==> payload[key] == BoxedFloat(r.value)
    ensures r.Failure? ==> r.error == FailureOf(payload, key)
  {
    if key in payload && payload[key].BoxedFloat? then Success(payload[key].f)
    else Failure(FailureOf(payload, key))
  }

  /** `payload[key] as Int`. */
  function AsInt(payload: Payload, key: PayloadKey): (r: Result<int32, CastFailure>)
    ensures r.Success? <==> Casts(payload, key, IntKind)
    ensures r.Success? ==> payload[key] == BoxedInt(r.value)
    ensures r.Failure? ==> r.error == FailureOf(payload, key)
  {
    if key in payload && payload[key].BoxedInt? then Success(payload[key].i)
    else Failure(FailureOf(payload, key))
  }

  /** `payload[key] as? Int ?: fallback`: never throws. */
  function AsIntOr(payload: Payload, key: PayloadKey, fallback: int32): (r: int32)
    ensures Casts(payload, key, IntKind) ==> payload[key] == BoxedInt(r)
    ensures !Casts(payload, key, IntKind) ==> r == fallback
  {
    if key in payload && payload[key].BoxedInt? then payload[key].i else fallback
  }

  /**
   * The exception an initialiser performing the casts `required`, in order,
   * throws: that of the first cast that fails, or none when all succeed.
   */
  function FirstFailure(payload: Payload, required: seq<(PayloadKey, Kind)>): (r: Option<CastFailure>)
    ensures r.None? <==> forall i :: 0 <= i < |required| ==> Casts(payload, required[i].0, required[i].1)
    ensures r.Some? ==> exists i :: && 0 <= i < |required|
                                    && !Casts(payload, required[i].0, required[i].1)
                                    && r.value == FailureOf(payload, required[i].0)
                                    && forall j :: 0 <= j < i ==> Casts(payload, required[j].0, required[j].1)
  {
    if |required| == 0 then None
    else if !Casts(payload, required[0].0, required[0].1) then Some(FailureOf(payload, required[0].0))
    else
      var rest := FirstFailure(payload, required[1..]);
      if rest.Some? then
        ghost var i :| && 0 <= i < |required[1..]|
                       && !Casts(payload, required[1..][i].0, required[1..][i].1)
                       && rest.value == FailureOf(payload, required[1..][i].0)
                       && forall j :: 0 <= j < i ==> Casts(payload, required[1..][j].0, required[1..][j].1);
        assert required[1..][i] == required[i + 1];
        assert forall j :: 0 <= j < i + 1 ==> Casts(payload, required[j].0, required[j].1) by {
          forall j | 0 <= j < i + 1 ensures Casts(payload, required[j].0, required[j].1) {
            if j > 0 {
              assert required[j] == required[1..][j - 1];
            }
          }
        }
        rest
      else
        assert forall i :: 0 <= i < |required| ==> Casts(payload, required[i].0, required[i].1) by {
          forall i | 0 <= i < |required| ensures Casts(payload, required[i].0, required[i].1) {
            if i > 0 {
              assert required[i] == required[1..][i - 1];
            }
          }
        }
        None
  }

  /** `FirstFailure` on a sequence of casts that starts with `head`. */
  lemma FirstFailureCons(payload: Payload, head: (PayloadKey, Kind), tail: seq<(PayloadKey, Kind)>)
    ensures FirstFailure(payload, [head] + tail) ==
            if !Casts(payload, head.0, head.1) then Some(FailureOf(payload, head.0))
            else FirstFailure(payload, tail)
  {
    assert ([head] + tail)[1..] == tail;
  }

  /** Two payloads that agree on `keys`. */
  ghost predicate AgreeOn(p: Payload, q: Payload, keys: set<PayloadKey>) {
    forall k :: k in keys ==> (k in p <==> k in q) && (k in p ==> p[k] == q[k])
  }
}
