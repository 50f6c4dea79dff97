/**
 * The second profile screen (screens/SplashScreen.js, a component named
 * Profile that App.js also shows while it is loading). It keeps the same
 * six pieces of state under other names (phone number, image), starts with
 * every notification on, loads a stored record under the key `profile`
 * and, when there is none, takes the first name and email from the route
 * parameters.
 *
 * As for the first profile screen, storage and JSON are not modelled: the
 * stored record and the route are handed to `LoadData` as values.
 */
module SplashScreen {
  import opened Wrappers
  import opened ProfileText

  /**
   * The storage key the record is kept under. The first profile screen
   * stores under `@user_profile_data`, so neither screen reads the other's
   * record.
   */
  const StorageKey := "profile"

  datatype StoredProfile = StoredProfile(
    firstName: Option<string>, lastName: Option<string>, email: Option<string>,
    phoneNumber: Option<string>, image: Option<string>, notifications: Option<map<string, bool>>)

  datatype ProfileState = ProfileState(
    firstName: string, lastName: string, email: string,
    phoneNumber: string, image: Option<string>, notifications: map<string, bool>)

  /** The navigation route: `params` may be missing. */
  datatype Route = Route(params: Option<RouteParams>)

  /** The parameters the onboarding flow may pass; either may be missing. */
  datatype RouteParams = RouteParams(firstName: Option<string>, email: Option<string>)

  datatype PickerResult = PickerResult(canceled: bool, assets: seq<string>)

  /** How an asynchronous handler ended: normally, or by an exception nobody catches. */
  datatype Outcome = Completed | Threw

  /** The switches before anything is loaded: all on. */
  const InitialNotifications: map<string, bool> :=
    map["orderStatus" := true, "passwordChange" := true, "specialOffers" := true, "newsletter" := true]

  const InitialState := ProfileState("", "", "", "", None, InitialNotifications)

  /**
   * The state loadData sets from a stored record: missing strings become
   * `''`, a missing or empty image null, and missing switches fall back to
   * `notifications` as loadData's closure sees it. The effect runs once, on
   * mount, so that closure holds the first render's switches: the initial
   * all-on map, whatever the state is by the time the read answers.
   */
  function Loaded(data: StoredProfile): (st: ProfileState)
    ensures st.firstName == data.firstName.GetOr("") && st.lastName == data.lastName.GetOr("")
    ensures st.email == data.email.GetOr("") && st.phoneNumber == data.phoneNumber.GetOr("")
    ensures st.image.Some? <==> data.image.Some? && data.image.value != ""
    ensures st.image.Some? ==> st.image == data.image
    ensures st.notifications == data.notifications.GetOr(InitialNotifications)
  {
    ProfileState(StringOr(data.firstName, ""), StringOr(data.lastName, ""), StringOr(data.email, ""),
                 StringOr(data.phoneNumber, ""), UriOrNull(data.image),
                 if data.notifications.Some? then data.notifications.value else InitialNotifications)
  }

  /** The state after the route parameters are applied: first name and email only. */
  function FromRoute(params: RouteParams, current: ProfileState): (st: ProfileState)
    ensures st.firstName == params.firstName.GetOr("") && st.email == params.email.GetOr("")
    ensures st.(firstName := current.firstName, email := current.email) == current
  {
    current.(firstName := StringOr(params.firstName, ""), email := StringOr(params.email, ""))
  }

  /** The record saveProfile stores: every field of the state, as it is. */
  function Snapshot(st: ProfileState): StoredProfile {
    StoredProfile(Some(st.firstName), Some(st.lastName), Some(st.email), Some(st.phoneNumber), st.image, Some(st.notifications))
  }

  /**
   * Saving and then loading restores every field; an empty image URI
   * comes back as null and shows the same initials badge.
   */
  lemma SaveLoadRoundTrip(st: ProfileState)
    ensures st.image != Some("") ==> Loaded(Snapshot(st)) == st
    ensures var back := Loaded(Snapshot(st));
      && back.(image := st.image) == st
      && ShowAvatar(back.image, back.firstName, back.lastName) == ShowAvatar(st.image, st.firstName, st.lastName)
  {
  }

  /** The component and its state. */
  class Profile {
    var firstName: string
    var lastName: string
    var email: string
    var phoneNumber: string
    var image: Option<string>
    var notifications: map<string, bool>

    function State(): ProfileState
      reads this
    {
      ProfileState(firstName, lastName, email, phoneNumber, image, notifications)
    }

    constructor ()
      ensures State() == InitialState
    {
      firstName, lastName, email, phoneNumber := "", "", "", "";
      image := None;
      notifications := InitialNotifications;
    }

    /**
     * loadData: a stored record sets every field; otherwise the route
     * parameters, when there are any, set the first name and the email.
     * Without a stored record and without a route (as when App.js shows
     * this component with no props) reading `route.params` throws and
     * nothing changes.
     */
    method LoadData(stored: Option<StoredProfile>, route: Option<Route>) returns (outcome: Outcome)
      modifies this
      ensures outcome == Threw <==> stored.None? && route.None?
      ensures stored.Some? ==> State() == Loaded(stored.value)
      ensures stored.None? && route.Some? && route.value.params.Some? ==>
                State() == FromRoute(route.value.params.value, old(State()))
      ensures stored.None? && (route.None? || route.value.params.None?) ==> State() == old(State())
    {
      outcome := Completed;
      if stored.Some? {
        var data := stored.value;
        firstName := StringOr(data.firstName, "");
        lastName := StringOr(data.lastName, "");
        email := StringOr(data.email, "");
        phoneNumber := StringOr(data.phoneNumber, "");
        image := UriOrNull(data.image);
        notifications := if data.notifications.Some? then data.notifications.value else InitialNotifications;
      } else if route.None? {
        outcome := Threw;
      } else if route.value.params.Some? {
        var params := route.value.params.value;
        firstName := StringOr(params.firstName, "");
        email := StringOr(params.email, "");
      }
    }

    /** saveProfile: the record holding the six fields as they are now. */
    method SaveProfile() returns (data: StoredProfile)
      ensures data == Snapshot(State())
    {
      data := StoredProfile(Some(firstName), Some(lastName), Some(email), Some(phoneNumber), image, Some(notifications));
    }

    /**
     * pickImage: unless cancelled, the first asset becomes the image; an
     * empty asset list makes `assets[0].uri` throw and nothing changes.
     */
    method PickImage(result: PickerResult) returns (outcome: Outcome)
      modifies this
      ensures outcome == Threw <==> !result.canceled && |result.assets| == 0
      ensures !result.canceled && |result.assets| > 0 ==> image == Some(result.assets[0])
      ensures result.canceled || |result.assets| == 0 ==> image == old(image)
      ensures State().(image := old(image)) == old(State())
    {
      outcome := Completed;
      if !result.canceled {
        if |result.assets| == 0 {
          outcome := Threw;
        } else {
          image := Some(result.assets[0]);
        }
      }
    }

    /** The Remove button: no image, so the initials placeholder is shown. */
    method RemoveImage()
      modifies this
      ensures image == None
      ensures ShowAvatar(image, firstName, lastName) == InitialsBadge(Initials(firstName, lastName))
      ensures State().(image := old(image)) == old(State())
    {
      image := None;
    }

    /** A switch changed: only that key takes the new value. */
    method SetNotification(key: string, value: bool)
      modifies this
      ensures notifications == SetSwitch(old(notifications), key, value)
      ensures State().(notifications := old(notifications)) == old(State())
    {
      notifications := SetSwitch(notifications, key, value);
    }
  }
}
