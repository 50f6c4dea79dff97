/**
 * The profile screen (screens/Profile.js): six pieces of state (names,
 * email, phone, avatar URI and the notification switches), loaded from and
 * saved to one stored record, an avatar picked from the image library or
 * removed, and one switch per notification.
 *
 * The key-value store and JSON are not modelled: a stored record is handed
 * to `LoadProfile` as a value (`None` when nothing is stored) and
 * `SaveProfile` returns the record it would store. A record field that is
 * absent or null in the stored JSON is `None`.
 */
module ProfileScreen {
  import opened Wrappers
  import opened ProfileText

  /**
   * The storage key the record is kept under. The other profile screen
   * stores under `profile`, so neither screen reads the other's record.
   */
  const StorageKey := "@user_profile_data"

  /** The stored record, field by field. */
  datatype StoredProfile = StoredProfile(
    firstName: Option<string>, lastName: Option<string>, email: Option<string>,
    phone: Option<string>, avatar: Option<string>, notifications: Option<map<string, bool>>)

  /** The screen's state fields, as one value. */
  datatype ProfileState = ProfileState(
    firstName: string, lastName: string, email: string,
    phone: string, avatar: Option<string>, notifications: map<string, bool>)

  /** The answer of the image library: cancelled or not, and the URIs of the assets picked. */
  datatype PickerResult = PickerResult(canceled: bool, assets: seq<string>)

  /** The switches before anything is loaded: all off. */
  const InitialNotifications: map<string, bool> :=
    map["orderStatus" := false, "passwordChanges" := false, "specialOffers" := false, "newsletter" := false]

  const InitialState := ProfileState("", "", "", "", None, InitialNotifications)

  /**
   * The state loadProfile sets from a stored record: a missing string is
   * `''`, a missing or empty avatar is null, and missing switches are an
   * empty map (not the initial all-off map).
   */
  function Loaded(data: StoredProfile): (st: ProfileState)
    ensures st.firstName == data.firstName.GetOr("") && st.lastName == data.lastName.GetOr("")
    ensures st.email == data.email.GetOr("") && st.phone == data.phone.GetOr("")
    ensures st.avatar.Some? <==> data.avatar.Some? && data.avatar.value != ""
    ensures st.avatar.Some? ==> st.avatar == data.avatar
    ensures st.notifications == data.notifications.GetOr(map[])
  {
    ProfileState(StringOr(data.firstName, ""), StringOr(data.lastName, ""), StringOr(data.email, ""),
                 StringOr(data.phone, ""), UriOrNull(data.avatar),
                 if data.notifications.Some? then data.notifications.value else map[])
  }

  /** The record saveProfile stores: every field of the state, as it is. */
  function Snapshot(st: ProfileState): StoredProfile {
    StoredProfile(Some(st.firstName), Some(st.lastName), Some(st.email), Some(st.phone), st.avatar, Some(st.notifications))
  }

  /**
   * Saving and then loading restores every field; the only exception is an
   * empty avatar URI, which comes back as null and so shows the same
   * initials badge as before.
   */
  lemma SaveLoadRoundTrip(st: ProfileState)
    ensures st.avatar != Some("") ==> Loaded(Snapshot(st)) == st
    ensures var back := Loaded(Snapshot(st));
      && back.(avatar := st.avatar) == st
      && ShowAvatar(back.avatar, back.firstName, back.lastName) == ShowAvatar(st.avatar, st.firstName, st.lastName)
  {
  }

  /** The profile screen component and its state. */
  class Profile {
    var firstName: string
    var lastName: string
    var email: string
    var phone: string
    var avatar: Option<string>
    var notifications: map<string, bool>

    function State(): ProfileState
      reads this
    {
      ProfileState(firstName, lastName, email, phone, avatar, notifications)
    }

    /** The state before the stored record is read. */
    constructor ()
      ensures State() == InitialState
    {
      firstName, lastName, email, phone := "", "", "", "";
      avatar := None;
      notifications := InitialNotifications;
    }

    /** loadProfile: with a stored record, every field is set from it; without one, nothing changes. */
    method LoadProfile(saved: Option<StoredProfile>)
      modifies this
      ensures saved.Some? ==> State() == Loaded(saved.value)
      ensures saved.None? ==> State() == old(State())
    {
      if saved.Some? {
        var data := saved.value;
        firstName := StringOr(data.firstName, "");
        lastName := StringOr(data.lastName, "");
        email := StringOr(data.email, "");
        phone := StringOr(data.phone, "");
        avatar := UriOrNull(data.avatar);
        notifications := if data.notifications.Some? then data.notifications.value else map[];
      }
    }

    /** saveProfile: the record holding the six fields as they are now. */
    method SaveProfile() returns (data: StoredProfile)
      ensures data == Snapshot(State())
    {
      data := StoredProfile(Some(firstName), Some(lastName), Some(email), Some(phone), avatar, Some(notifications));
    }

    /** pickImage: the first asset becomes the avatar, unless the pick was cancelled or returned nothing. */
    method PickImage(result: PickerResult)
      modifies this
      ensures !result.canceled && |result.assets| > 0 ==> avatar == Some(result.assets[0])
      ensures result.canceled || |result.assets| == 0 ==> avatar == old(avatar)
      ensures State().(avatar := old(avatar)) == old(State())
    {
      if !result.canceled && |result.assets| > 0 {
        avatar := Some(result.assets[0]);
      }
    }

    /** The Remove button: no avatar, so the initials are shown. */
    method RemoveAvatar()
      modifies this
      ensures avatar == None
      ensures ShowAvatar(avatar, firstName, lastName) == InitialsBadge(Initials(firstName, lastName))
      ensures State().(avatar := old(avatar)) == old(State())
    {
      avatar := None;
    }

    /** A switch changed: only that key of the notification map takes the new value. */
    method SetNotification(key: string, value: bool)
      modifies this
      ensures notifications == SetSwitch(old(notifications), key, value)
      ensures State().(notifications := old(notifications)) == old(State())
    {
      notifications := SetSwitch(notifications, key, value);
    }
  }
}
