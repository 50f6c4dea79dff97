/**
 * The display helpers the two profile screens share (screens/Profile.js and
 * screens/SplashScreen.js): the initials shown in place of a missing
 * avatar, the label of a notification switch derived from its camelCase
 * key, and the update of one switch in the notification map.
 */
module ProfileText {
  import opened Wrappers
  import opened JsText

  /** `value || fallback` for a stored string: missing, null and `''` are falsy. */
  function StringOr(v: Option<string>, fallback: string): string {
    if v.Some? && v.value != "" then v.value else fallback
  }

  /** `uri || null` for a stored picture URI: a missing or empty URI becomes null. */
  function UriOrNull(v: Option<string>): Option<string> {
    if v.Some? && v.value != "" then v else None
  }

  /** `s?.[0] || ''`: the first character, or nothing for an empty string. */
  function FirstChar(s: string): string {
    if |s| > 0 then [s[0]] else ""
  }

  /**
   * renderInitials: the upper-cased first characters of the first and the
   * last name; an empty name contributes nothing.
   */
  function Initials(firstName: string, lastName: string): (r: string)
    ensures |r| == (if |firstName| > 0 then 1 else 0) + (if |lastName| > 0 then 1 else 0)
    ensures |firstName| > 0 ==> r[0] == UpperChar(firstName[0])
    ensures |lastName| > 0 ==> r[|r| - 1] == UpperChar(lastName[0])
    ensures forall i | 0 <= i < |r| :: !IsAsciiLower(r[i])
  {
    ToUpper(FirstChar(firstName) + FirstChar(lastName))
  }

  /** What the avatar slot shows: the picture, or the initials in its place. */
  datatype AvatarView = Picture(uri: string) | InitialsBadge(text: string)

  /** `avatar ? <Image/> : renderInitials()`: a null or empty URI is falsy. */
  function ShowAvatar(avatar: Option<string>, firstName: string, lastName: string): (v: AvatarView)
    ensures v.Picture? <==> avatar.Some? && avatar.value != ""
    ensures v.Picture? ==> v.uri == avatar.value
    ensures v.InitialsBadge? ==> v.text == Initials(firstName, lastName)
  {
    if avatar.Some? && avatar.value != "" then Picture(avatar.value) else InitialsBadge(Initials(firstName, lastName))
  }

  /** `key.replace(/([A-Z])/g, ' $1')`: a space inserted before every upper-case ASCII letter. */
  function SpaceBeforeCapitals(key: string): string {
    if key == [] then []
    else (if IsAsciiUpper(key[0]) then [' ', key[0]] else [key[0]]) + SpaceBeforeCapitals(key[1..])
  }

  /** Number of upper-case ASCII letters in `s`. */
  function CountUpper(s: string): nat {
    if s == [] then 0 else (if IsAsciiUpper(s[0]) then 1 else 0) + CountUpper(s[1..])
  }

  /**
   * The spaced label is one character longer per capital, and every capital
   * in it comes right after a space.
   */
  lemma {:induction false} SpacedLabelShape(key: string)
    ensures |SpaceBeforeCapitals(key)| == |key| + CountUpper(key)
    ensures forall i | 0 <= i < |SpaceBeforeCapitals(key)| && IsAsciiUpper(SpaceBeforeCapitals(key)[i]) ::
      i > 0 && SpaceBeforeCapitals(key)[i - 1] == ' '
  {
    if key != [] {
      SpacedLabelShape(key[1..]);
      var head := if IsAsciiUpper(key[0]) then [' ', key[0]] else [key[0]];
      var rest := SpaceBeforeCapitals(key[1..]);
      var r := SpaceBeforeCapitals(key);
      assert r == head + rest;
      forall i | 0 <= i < |r| && IsAsciiUpper(r[i]) ensures i > 0 && r[i - 1] == ' ' {
        if i >= |head| {
          assert r[i] == rest[i - |head|];
          if i > |head| { assert r[i - 1] == rest[i - 1 - |head|]; }
        }
      }
    }
  }

  /** A spaced label never starts with a capital: its capitals all follow a space. */
  lemma SpacedLabelStart(key: string)
    ensures SpaceBeforeCapitals(key) == [] || !IsAsciiUpper(SpaceBeforeCapitals(key)[0])
  {
    SpacedLabelShape(key);
  }

  /** Removes every space that stands right before an upper-case ASCII letter. */
  function JoinWords(text: string): string {
    if text == [] then []
    else if text[0] == ' ' && |text| > 1 && IsAsciiUpper(text[1]) then JoinWords(text[1..])
    else [text[0]] + JoinWords(text[1..])
  }

  /** Joining the words of a spaced label gives back the key it came from. */
  lemma {:induction false} JoinWordsUndoesSpacing(key: string)
    ensures JoinWords(SpaceBeforeCapitals(key)) == key
  {
    if key != [] {
      var rest := SpaceBeforeCapitals(key[1..]);
      JoinWordsUndoesSpacing(key[1..]);
      SpacedLabelStart(key[1..]);
      if IsAsciiUpper(key[0]) {
        assert SpaceBeforeCapitals(key) == [' ', key[0]] + rest;
        assert ([' ', key[0]] + rest)[1..] == [key[0]] + rest;
        assert ([key[0]] + rest)[1..] == rest;
      } else {
        assert SpaceBeforeCapitals(key) == [key[0]] + rest;
        assert ([key[0]] + rest)[1..] == rest;
      }
    }
  }

  /** `.replace(/^./, str => str.toUpperCase())`: `.` does not match a line terminator. */
  function CapitalizeFirst(s: string): (r: string)
    ensures |r| == |s|
    ensures |s| > 0 ==> r[1..] == s[1..]
    ensures |s| > 0 && !IsLineTerminator(s[0]) ==> r[0] == UpperChar(s[0])
    ensures |s| > 0 && IsLineTerminator(s[0]) ==> r == s
  {
    if |s| > 0 && !IsLineTerminator(s[0]) then [UpperChar(s[0])] + s[1..] else s
  }

  /** The switch label of the first profile screen: spaced, then capitalised. */
  function ProfileLabel(key: string): string {
    CapitalizeFirst(SpaceBeforeCapitals(key))
  }

  /**
   * A camelCase key that starts with a lower-case letter becomes its
   * capitalised first letter followed by the spaced rest; a key that starts
   * with a capital gets a leading space.
   */
  lemma ProfileLabelShape(key: string)
    requires key != []
    ensures IsAsciiLower(key[0]) ==> ProfileLabel(key) == [UpperChar(key[0])] + SpaceBeforeCapitals(key[1..])
    ensures IsAsciiUpper(key[0]) ==> ProfileLabel(key) == [' ', key[0]] + SpaceBeforeCapitals(key[1..])
    ensures |ProfileLabel(key)| == |key| + CountUpper(key)
  {
    SpacedLabelShape(key);
  }

  /** `{...prev, [key]: value}`: one switch set, every other left alone. */
  function SetSwitch(switches: map<string, bool>, key: string, value: bool): (r: map<string, bool>)
    ensures r.Keys == switches.Keys + {key}
    ensures r[key] == value
    ensures forall k | k in switches && k != key :: r[k] == switches[k]
  {
    switches[key := value]
  }

  /**
   * Setting a switch that is shown keeps the set of switches, and setting
   * it back to its old value restores the map.
   */
  lemma SetSwitchShown(switches: map<string, bool>, key: string, value: bool)
    requires key in switches
    ensures SetSwitch(switches, key, value).Keys == switches.Keys
    ensures SetSwitch(SetSwitch(switches, key, value), key, switches[key]) == switches
  {
  }
}
