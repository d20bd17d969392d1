/**
 * The `AD_CONFIG` object of js/ad-config.js: two sets of ad unit ids,
 * the `ENVIRONMENT` field naming the one in use, `getCurrent()`, which
 * reads `this[this.ENVIRONMENT]`, the guarded `setEnvironment(env)`, and
 * `CURRENT_AD_CONFIG`, read once when the script loads.
 */
module AdConfig {

  const INITIAL_ENVIRONMENT := "TEST"

  /** One environment's ad unit ids. */
  datatype AdUnits = AdUnits(appId: string, bannerSlot: string, interstitialSlot: string, rewardedSlot: string)

  const TEST_UNITS := AdUnits("ca-app-pub-3940256099942544~3347511713", "6300978111", "1033173712", "6978759866")
  const PRODUCTION_UNITS := AdUnits("ca-app-pub-xxxxxxxxxxxxxxxx~yyyyyyyyyy", "ca-pub-xxxxxxxxxxxxxxxxxxxxxxxx",
                                    "ca-pub-xxxxxxxxxxxxxxxxxxxxxxxx", "ca-pub-xxxxxxxxxxxxxxxxxxxxxxxx")

  /** What a property lookup on `AD_CONFIG` can give. */
  datatype Value = Units(units: AdUnits) | Text(text: string) | Function(name: string) | ObjectPrototype | Undefined

  /** The members every object inherits from `Object.prototype`, all functions. */
  predicate InheritedMethod(key: string) {
    key in {"constructor", "hasOwnProperty", "isPrototypeOf", "propertyIsEnumerable", "toLocaleString",
            "toString", "valueOf", "__defineGetter__", "__defineSetter__", "__lookupGetter__", "__lookupSetter__"}
  }

  /** `AD_CONFIG[key]` while `ENVIRONMENT` holds `environment`. */
  function Property(environment: string, key: string): Value {
    if key == "TEST" then Units(TEST_UNITS)
    else if key == "PRODUCTION" then Units(PRODUCTION_UNITS)
    else if key == "ENVIRONMENT" then Text(environment)
    else if key == "getCurrent" || key == "setEnvironment" then Function(key)
    else if key == "__proto__" then ObjectPrototype
    else if InheritedMethod(key) then Function(key)
    else Undefined
  }

  /** JavaScript truthiness of a looked-up value. */
  predicate Truthy(v: Value) {
    match v
    case Undefined => false
    case Text(t) => t != []
    case _ => true
  }

  /** The keys `setEnvironment` accepts: those whose lookup is truthy. */
  function Accepts(environment: string, key: string): (r: bool)
    ensures key == "TEST" || key == "PRODUCTION" || key == "getCurrent" || key == "setEnvironment" ==> r
    ensures key == "ENVIRONMENT" ==> (r <==> environment != [])
    ensures r ==> key != []
  {
    Truthy(Property(environment, key))
  }

  /** `ENVIRONMENT` after `setEnvironment(env)`. */
  function Switched(environment: string, env: string): (r: string)
    ensures Accepts(environment, env) ==> r == env
    ensures !Accepts(environment, env) ==> r == environment
    ensures environment != [] ==> r != []
  {
    if Accepts(environment, env) then env else environment
  }

  /** `CURRENT_AD_CONFIG`: the value `getCurrent()` gave at load, when `ENVIRONMENT` was "TEST". */
  const LOAD_TIME_CONFIG := Property(INITIAL_ENVIRONMENT, INITIAL_ENVIRONMENT)

  class AdSettings {
    var environment: string

    ghost predicate Valid()
      reads this
    {
      environment != []
    }

    constructor ()
      ensures Valid() && environment == INITIAL_ENVIRONMENT
    {
      environment := INITIAL_ENVIRONMENT;
    }

    /** `getCurrent()`: `this[this.ENVIRONMENT]`. */
    method GetCurrent() returns (v: Value)
      ensures v == Property(environment, environment)
      ensures environment == "TEST" ==> v == Units(TEST_UNITS)
      ensures environment == "PRODUCTION" ==> v == Units(PRODUCTION_UNITS)
    {
      v := Property(environment, environment);
    }

    /** `setEnvironment(env)`: switches and answers true when `this[env]` is truthy, otherwise answers false. */
    method SetEnvironment(env: string) returns (ok: bool)
      requires Valid()
      modifies this
      ensures Valid()
      ensures ok <==> Accepts(old(environment), env)
      ensures environment == Switched(old(environment), env)
    {
      if Accepts(environment, env) {
        environment := env;
        return true;
      }
      return false;
    }
  }

  /**
   * The guard is a truthiness test, not a check against the two
   * environments: an unknown name is refused, but the object's other
   * keys are accepted, after which `getCurrent()` no longer gives ad units.
   */
  lemma GuardAcceptsAnyKey(environment: string)
    requires environment != []
    ensures !Accepts(environment, "STAGING")
    ensures Accepts(environment, "ENVIRONMENT") && Accepts(environment, "getCurrent") && Accepts(environment, "toString")
    ensures Property(Switched(environment, "getCurrent"), Switched(environment, "getCurrent")) == Function("getCurrent")
    ensures !Property(Switched(environment, "toString"), Switched(environment, "toString")).Units?
  {
  }

  /**
   * `CURRENT_AD_CONFIG` keeps the test units after a switch to
   * production, while `getCurrent()` follows the switch.
   */
  lemma LoadTimeConfigIsStale()
    ensures LOAD_TIME_CONFIG == Units(TEST_UNITS)
    ensures Property(Switched(INITIAL_ENVIRONMENT, "PRODUCTION"), Switched(INITIAL_ENVIRONMENT, "PRODUCTION")) == Units(PRODUCTION_UNITS)
    ensures LOAD_TIME_CONFIG != Units(PRODUCTION_UNITS)
  {
  }
}
