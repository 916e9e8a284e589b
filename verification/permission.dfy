/** The admission decision: the legacy per-service block list, the verdict
    of the preference mode, and how a missing verdict falls back to the
    legacy list. All pure; the lookup that feeds the verdict is performed by
    the handler module. */
module Permission {
  import opened Wrappers
  import opened Models

  const LEGACY_MODE_ERROR := "User service preferences mode is LEGACY"

  /** The message of the error a failed preference read is mapped to. */
  function CosmosError(kind: string): string
  {
    "COSMOSDB|ERROR=" + kind
  }

  /** `Array.prototype.indexOf`: the first position of `c` in `s`, or -1. */
  function IndexOf(s: seq<Channel>, c: Channel): (r: int)
    ensures -1 <= r < |s|
    ensures r >= 0 <==> c in s
    ensures r >= 0 ==> s[r] == c && forall j :: 0 <= j < r ==> s[j] != c
  {
    if s == [] then -1
    else if s[0] == c then 0
    else
      var k := IndexOf(s[1..], c);
      if k < 0 then -1 else k + 1
  }

  /** The channels the profile blocks for `serviceId`: an absent block map
      and an absent entry both give the empty list. */
  function BlockedChannelsFor(profile: Profile, serviceId: ServiceId): (r: seq<Channel>)
    ensures profile.blockedInboxOrChannels.None? ==> r == []
    ensures profile.blockedInboxOrChannels.Some? && serviceId !in profile.blockedInboxOrChannels.value ==> r == []
    ensures profile.blockedInboxOrChannels.Some? && serviceId in profile.blockedInboxOrChannels.value
            ==> r == profile.blockedInboxOrChannels.value[serviceId]
  {
    match profile.blockedInboxOrChannels
    case None => []
    case Some(bc) => if serviceId in bc then bc[serviceId] else []
  }

  /** The verdict of the preference mode, given the answer of the keyed
      preference read (which the handler does not perform in LEGACY mode).
      Left means "no verdict": LEGACY mode, or a failed read. */
  function PermissionToCreateMessage(mode: ServicesPreferencesMode, lookup: Lookup<ServicePreference>): (r: Either<string, bool>)
    ensures r.Right? <==> mode != LEGACY && lookup.Retrieved?
    ensures mode == LEGACY ==> r == Left(LEGACY_MODE_ERROR)
    ensures mode != LEGACY && lookup.LookupError? ==> r == Left(CosmosError(lookup.kind))
    ensures r.Right? && lookup.maybe.None? ==> (r.right <==> mode == AUTO)
    ensures r.Right? && lookup.maybe.Some? ==> (r.right <==> lookup.maybe.value.isInboxEnabled)
  {
    if mode == LEGACY then Left(LEGACY_MODE_ERROR)
    else
      match lookup
      case LookupError(kind) => Left(CosmosError(kind))
      case Retrieved(None) => Right(mode == AUTO)
      case Retrieved(Some(pref)) => Right(pref.isInboxEnabled)
  }

  /** Folds the verdict: a Left falls back to "INBOX is not in the legacy
      block list", a Right is taken as it is. */
  function IsMessageStorageAllowed(permission: Either<string, bool>, blocked: seq<Channel>): (r: bool)
    ensures permission.Right? ==> (r <==> permission.right)
    ensures permission.Left? ==> (r <==> INBOX !in blocked)
  {
    match permission
    case Left(_) => !(IndexOf(blocked, INBOX) >= 0)
    case Right(allowed) => allowed
  }

  /** Whether a message from `serviceId` may be stored for `profile`. */
  function Admission(profile: Profile, serviceId: ServiceId, lookup: Lookup<ServicePreference>): (r: bool)
    ensures profile.servicePreferencesSettings.mode == LEGACY ==> (r <==> INBOX !in BlockedChannelsFor(profile, serviceId))
  {
    IsMessageStorageAllowed(
      PermissionToCreateMessage(profile.servicePreferencesSettings.mode, lookup),
      BlockedChannelsFor(profile, serviceId))
  }

  /** The whole decision table, mode by mode. */
  lemma AdmissionTable(profile: Profile, serviceId: ServiceId, lookup: Lookup<ServicePreference>)
    ensures var mode := profile.servicePreferencesSettings.mode;
      && (mode == LEGACY ==> (Admission(profile, serviceId, lookup) <==> INBOX !in BlockedChannelsFor(profile, serviceId)))
      && (mode != LEGACY && lookup.LookupError? ==>
            (Admission(profile, serviceId, lookup) <==> INBOX !in BlockedChannelsFor(profile, serviceId)))
      && (mode != LEGACY && lookup == Retrieved(None) ==> (Admission(profile, serviceId, lookup) <==> mode == AUTO))
      && (mode != LEGACY && lookup.Retrieved? && lookup.maybe.Some? ==>
            (Admission(profile, serviceId, lookup) <==> lookup.maybe.value.isInboxEnabled))
  {
  }

  /** A failed preference read decides exactly as LEGACY mode does, whatever
      the answer a LEGACY profile would have been given. */
  lemma PreferenceErrorFallsBackToLegacy(profile: Profile, serviceId: ServiceId, kind: string, other: Lookup<ServicePreference>)
    requires profile.servicePreferencesSettings.mode != LEGACY
    ensures var legacy := profile.(servicePreferencesSettings := profile.servicePreferencesSettings.(mode := LEGACY));
      Admission(profile, serviceId, LookupError(kind)) == Admission(legacy, serviceId, other)
  {
  }

  /** The legacy list depends on the block map alone, never on the mode. */
  lemma BlockedChannelsIgnoreSettings(profile: Profile, serviceId: ServiceId, settings: ServicePreferencesSettings)
    ensures BlockedChannelsFor(profile.(servicePreferencesSettings := settings), serviceId) == BlockedChannelsFor(profile, serviceId)
  {
  }
}
