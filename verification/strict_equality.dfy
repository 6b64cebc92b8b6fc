/**
 * The "target unchanged" test of the SET handler, `targetState === this.switchOn`,
 * on the JavaScript values it actually compares. The characteristic is a uint8
 * with valid values 0 and 1, so the framework delivers the requested state as a
 * number, and `value as boolean` converts nothing. `switchOn` starts as the
 * boolean `false` and only holds a number once a command has succeeded. Until
 * then strict equality is never true, so a request for off on a fresh
 * accessory is not recognised as unchanged.
 *
 * The rest of the model compares power states, as the test evidently intends.
 */
module StrictEquality {
  import opened PowerSync

  /** The JavaScript values that reach the comparison. */
  datatype JsValue = JsBool(b: bool) | JsNumber(n: int)

  /**
   * The test as written, `targetState === this.switchOn`: JavaScript `===` on
   * these values, true for the same type and the same value.
   */
  predicate StrictEquals(a: JsValue, b: JsValue) {
    match (a, b)
    case (JsBool(x), JsBool(y)) => x == y
    case (JsNumber(x), JsNumber(y)) => x == y
    case _ => false
  }

  /** The power state a value stands for, read as `if (targetState)` reads it. */
  predicate Truthy(v: JsValue) {
    match v
    case JsBool(b) => b
    case JsNumber(n) => n != 0
  }

  /** Corrected: the requested power state is the current one. */
  predicate Unchanged(value: JsValue, switchOn: JsValue) {
    Truthy(value) == Truthy(switchOn)
  }

  /**
   * On a freshly constructed accessory a request for off (the number 0) asks
   * for the state the accessory is already in, yet the test as written does
   * not see it, while the model re-reports and acknowledges immediately.
   */
  lemma FreshAccessoryOffRequestMissed(mac: string)
    ensures Truthy(JsNumber(0)) == Init(mac).switchOn
    ensures !StrictEquals(JsNumber(0), JsBool(Init(mac).switchOn))
    ensures Unchanged(JsNumber(0), JsBool(Init(mac).switchOn))
    ensures Step(Init(mac), BeginSet(Truthy(JsNumber(0)))).acks == [0]
  {
  }

  /**
   * Once a command has succeeded `switchOn` holds the number the framework
   * sent, and from then on the test as written agrees with the corrected one.
   */
  lemma AsWrittenAgreesOnceNumeric(value: JsValue, switchOn: JsValue)
    requires value.JsNumber? && (value.n == 0 || value.n == 1)
    requires switchOn.JsNumber? && (switchOn.n == 0 || switchOn.n == 1)
    ensures StrictEquals(value, switchOn) <==> Unchanged(value, switchOn)
  {
  }

  /**
   * The corrected test depends only on the power states the values stand
   * for, and it decides exactly as the model's SET does: a request is
   * re-reported and acknowledged immediately iff it is unchanged.
   */
  lemma UnchangedMatchesModel(s: State, value: JsValue, stored: JsValue)
    requires Truthy(stored) == s.switchOn
    ensures var s' := Step(s, BeginSet(Truthy(value)));
      Unchanged(value, stored) <==> s'.acks == s.acks + [|s.requests|]
    ensures var s' := Step(s, BeginSet(Truthy(value)));
      Unchanged(value, stored) <==> s'.reports == s.reports + [s.switchOn]
  {
  }
}
