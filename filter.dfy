/** The relay's single filter rule: skip an event whose `score` is truthy
    and converts to a number below 50. */
module Filter {
  import opened Wrappers
  import opened Js

  const SkipReason := "score<50"

  /** `shouldSkip`: `payload.score && Number(payload.score) < 50`. The only
      reason ever returned is "score<50", and the rule throws exactly when
      the score is an object (or array) whose conversion throws. */
  function ShouldSkip(rt: Runtime, payload: Value): (r: Completion<Option<string>>)
    ensures r == Normal(None) || r == Normal(Some(SkipReason)) || r == TypeError
    ensures r.TypeError? <==> ToPrimitiveThrows(Get(payload, "score"))
    ensures r == Normal(Some(SkipReason)) ==> Truthy(Get(payload, "score"))
  {
    var score := Get(payload, "score");
    if !Truthy(score) then Normal(None)
    else
      match ToNumber(rt, score)
      case TypeError => TypeError
      case Normal(n) => Normal(if LessThan(n, 50.0) then Some(SkipReason) else None)
  }

  /** The rule spelled out kind by kind, as a reference for `ShouldSkip`:
      `true` converts to 1, a non-zero finite number or `-Infinity` below
      50 skips, a non-empty string skips when its parse is below 50, an
      array skips when its joined string form parses below 50, and an
      object without its own `toString` skips when "[object Object]" does. */
  predicate ScoreSkips(rt: Runtime, score: Value) {
    match score
    case Undefined => false
    case Null => false
    case Bool(b) => b
    case Num(n) =>
      (match n
       case NaN => false
       case Finite(x) => x != 0.0 && x < 50.0
       case PosInfinity => false
       case NegInfinity => true)
    case Str(s) => s != "" && LessThan(rt.stringToNumber(s), 50.0)
    case Arr(items) =>
      Join(rt, items).Normal? && LessThan(rt.stringToNumber(Join(rt, items).value), 50.0)
    case Obj(fields) =>
      Lookup(fields, "toString").None? && LessThan(rt.stringToNumber("[object Object]"), 50.0)
  }

  lemma ShouldSkipByKind(rt: Runtime, payload: Value)
    ensures ShouldSkip(rt, payload) == Normal(Some(SkipReason)) <==> ScoreSkips(rt, Get(payload, "score"))
    ensures ShouldSkip(rt, payload) == Normal(None) <==>
      !ScoreSkips(rt, Get(payload, "score")) && !ToPrimitiveThrows(Get(payload, "score"))
  {
  }

  /** A score object with its own `toString` member, or an array holding
      one, makes the rule throw instead of deciding. */
  lemma ThrowingScore(rt: Runtime, payload: Value, fields: seq<(string, Value)>, x: Value)
    requires Get(payload, "score") == Obj(fields + [("toString", x)])
          || Get(payload, "score") == Arr([Obj(fields + [("toString", x)])])
    ensures ShouldSkip(rt, payload) == TypeError
  {
    var o := Obj(fields + [("toString", x)]);
    assert ToPrimitiveThrows(o);
    assert [o][0] == o;
  }

  /** A payload without a `score` member, or one that is not an object,
      is never skipped. */
  lemma MissingScoreNeverSkips(rt: Runtime, payload: Value)
    requires !payload.Obj? || forall i :: 0 <= i < |payload.fields| ==> payload.fields[i].0 != "score"
    ensures ShouldSkip(rt, payload) == Normal(None)
  {
  }

  /** A falsy score (`0`, `null`, `false`, `""`, `NaN`) never skips, even
      though `0` is below 50. */
  lemma FalsyScoreNeverSkips(rt: Runtime, payload: Value)
    requires !Truthy(Get(payload, "score"))
    ensures ShouldSkip(rt, payload) == Normal(None)
  {
  }

  /** A score whose conversion gives `NaN` never skips. */
  lemma NaNScoreNeverSkips(rt: Runtime, payload: Value)
    requires ToNumber(rt, Get(payload, "score")) == Normal(NaN)
    ensures ShouldSkip(rt, payload) == Normal(None)
  {
  }

  /** A number score skips exactly when it is non-zero and below 50; so
      every negative number skips. */
  lemma NumberScore(rt: Runtime, payload: Value, x: real)
    requires Get(payload, "score") == Num(Finite(x))
    ensures ShouldSkip(rt, payload) == Normal(Some(SkipReason)) <==> x != 0.0 && x < 50.0
    ensures x < 0.0 ==> ShouldSkip(rt, payload) == Normal(Some(SkipReason))
  {
  }

  /** A non-empty string score is judged by its parse: "30" skips, and so
      does "0", although the number 0 does not. */
  lemma StringScore(rt: Runtime, payload: Value, s: string)
    requires Get(payload, "score") == Str(s) && s != ""
    ensures ShouldSkip(rt, payload) == Normal(Some(SkipReason)) <==> LessThan(rt.stringToNumber(s), 50.0)
  {
  }

  /** An empty array is truthy and `Number([])` is 0, so a score of `[]`
      skips. */
  lemma EmptyArrayScoreSkips(rt: Runtime, payload: Value)
    requires Get(payload, "score") == Arr([])
    requires rt.stringToNumber("") == Finite(0.0)
    ensures ShouldSkip(rt, payload) == Normal(Some(SkipReason))
  {
  }
}
