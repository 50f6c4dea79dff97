/**
 * The root component (App.js): while the onboarding flag is read from
 * storage only the splash screen is shown; afterwards the navigator holds
 * either Home (onboarding done) or Onboarding, and always Profile.
 * Finishing onboarding stores the flag and then records it in the state.
 *
 * Storage is a map from keys to stored text, handed in and out as a value;
 * a failing read or write is a parameter. `JSON.parse` is library code and
 * is a parameter too: it maps a text to the JSON value it denotes, or to
 * `None` when it throws. Whatever value it gives is what the state holds,
 * and the render branches on that value's truthiness, as JavaScript does.
 */
module App {
  import opened Wrappers

  const OnboardingKey := "@app_onboarding_completed"

  /** A value `JSON.parse` can produce. */
  datatype JsonValue =
    | JNull
    | JBool(b: bool)
    | JNumber(n: real)
    | JString(s: string)
    | JArray(items: seq<JsonValue>)
    | JObject(members: seq<(string, JsonValue)>)

  /** `JSON.parse`: the value a text denotes, or `None` when parsing throws. */
  type JsonParser = string -> Option<JsonValue>

  /** What reading the flag gives: the read threw, the key is absent, or its stored text. */
  datatype FlagRead = ReadFailed | Absent | Stored(text: string)

  /** The screens a render puts on the screen or registers with the navigator. */
  datatype Screen = Splash | Home | Onboarding | Profile

  /**
   * JavaScript truthiness of a parsed value: `null`, `false`, zero and the
   * empty string are falsy; arrays and objects, even empty ones, are truthy.
   */
  predicate Truthy(v: JsonValue) {
    match v
    case JNull => false
    case JBool(b) => b
    case JNumber(n) => n != 0.0
    case JString(s) => s != ""
    case _ => true
  }

  /** `JSON.stringify` of a boolean. */
  function StringifyFlag(b: bool): string {
    if b then "true" else "false"
  }

  /** A parser that reads the two boolean literals back as booleans, as every JSON parser does. */
  predicate ReadsBooleans(parse: JsonParser) {
    forall b: bool :: parse(StringifyFlag(b)) == Some(JBool(b))
  }

  /** `AsyncStorage.getItem` of the flag from a store that answers. */
  function ReadFlag(storage: map<string, string>): FlagRead {
    if OnboardingKey in storage then Stored(storage[OnboardingKey]) else Absent
  }

  /** The completion flag once checkOnboardingStatus has run, from the flag it had before. */
  function FlagAfterCheck(read: FlagRead, parse: JsonParser, current: JsonValue): JsonValue {
    match read
    case Stored(text) => parse(text).GetOr(current)
    case _ => current
  }

  /**
   * A present text that parses sets completion to whatever value it
   * denotes, boolean or not; an absent key, a failed read or a text whose
   * parse throws leave it as it was.
   */
  lemma FlagAfterCheckCases(read: FlagRead, parse: JsonParser, current: JsonValue)
    ensures read.ReadFailed? || read.Absent? ==> FlagAfterCheck(read, parse, current) == current
    ensures read.Stored? && parse(read.text).Some? ==> FlagAfterCheck(read, parse, current) == parse(read.text).value
    ensures read.Stored? && parse(read.text).None? ==> FlagAfterCheck(read, parse, current) == current
  {
  }

  /**
   * Once the flag is stored, the next start of the app reads it back as a
   * truthy value; a store without the key keeps the initial `false`, and
   * a stored `false` is falsy too.
   */
  lemma StoredFlagSurvivesRestart(storage: map<string, string>, parse: JsonParser)
    requires ReadsBooleans(parse)
    ensures Truthy(FlagAfterCheck(ReadFlag(storage[OnboardingKey := StringifyFlag(true)]), parse, JBool(false)))
    ensures !Truthy(FlagAfterCheck(ReadFlag(storage[OnboardingKey := StringifyFlag(false)]), parse, JBool(false)))
    ensures OnboardingKey !in storage ==> !Truthy(FlagAfterCheck(ReadFlag(storage), parse, JBool(false)))
  {
    assert parse(StringifyFlag(true)) == Some(JBool(true));
    assert parse(StringifyFlag(false)) == Some(JBool(false));
  }

  /** The state of the root component. */
  class AppState {
    var isLoading: bool
    var isOnboardingCompleted: JsonValue

    /** The initial state: loading, onboarding not completed. */
    constructor ()
      ensures isLoading && isOnboardingCompleted == JBool(false)
    {
      isLoading := true;
      isOnboardingCompleted := JBool(false);
    }

    /**
     * checkOnboardingStatus: the stored flag, when present and parsable,
     * becomes the completion state whatever JSON value it is; loading ends
     * in every case (the `finally` branch).
     */
    method CheckOnboardingStatus(read: FlagRead, parse: JsonParser)
      modifies this
      ensures !isLoading
      ensures isOnboardingCompleted == FlagAfterCheck(read, parse, old(isOnboardingCompleted))
    {
      if read.Stored? {
        var parsed := parse(read.text);
        if parsed.Some? {
          isOnboardingCompleted := parsed.value;
        }
      }
      isLoading := false;
    }

    /**
     * handleOnboardingFinish: first the flag `true` is stored under the
     * onboarding key, then completion is set; when the write throws,
     * neither the store nor the state changes.
     */
    method HandleOnboardingFinish(storage: map<string, string>, writeFails: bool) returns (stored: map<string, string>)
      modifies this
      ensures isLoading == old(isLoading)
      ensures writeFails ==> stored == storage && isOnboardingCompleted == old(isOnboardingCompleted)
      ensures !writeFails ==> stored == storage[OnboardingKey := StringifyFlag(true)] && isOnboardingCompleted == JBool(true)
    {
      if writeFails {
        stored := storage;
      } else {
        stored := storage[OnboardingKey := StringifyFlag(true)];
        isOnboardingCompleted := JBool(true);
      }
    }

    /**
     * What the component renders: the splash screen alone while loading;
     * afterwards Home or Onboarding, whichever the truthiness of the flag
     * selects, and Profile.
     */
    function Screens(): (screens: seq<Screen>)
      reads this
      ensures isLoading ==> screens == [Splash]
      ensures !isLoading ==> Splash !in screens && Profile in screens
      ensures !isLoading ==> (Home in screens <==> Truthy(isOnboardingCompleted))
      ensures !isLoading ==> (Onboarding in screens <==> !Truthy(isOnboardingCompleted))
    {
      if isLoading then [Splash]
      else [if Truthy(isOnboardingCompleted) then Home else Onboarding, Profile]
    }
  }
}
