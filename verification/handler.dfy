/** The store-message-content activity: decode the event, fetch the
    recipient's profile, check the master inbox flag, decide admission, then
    store the content and make the message visible. */
module StoreMessageContentActivity {
  import opened Wrappers
  import opened Models
  import opened Calls
  import opened Permission

  /** The collaborators the activity is built with (profile model, message
      model with its blob service, preferences model). Each answers with the
      outcome it was set up with; every call is appended to `calls`. */
  class Collaborators {
    const profileResult: Lookup<Profile>
    const preferenceResult: Lookup<ServicePreference>
    const blobResult: Write
    const upsertResult: Write
    var calls: seq<Call>

    constructor (profileResult: Lookup<Profile>, preferenceResult: Lookup<ServicePreference>, blobResult: Write, upsertResult: Write)
      ensures this.profileResult == profileResult && this.preferenceResult == preferenceResult
      ensures this.blobResult == blobResult && this.upsertResult == upsertResult
      ensures calls == []
    {
      this.profileResult := profileResult;
      this.preferenceResult := preferenceResult;
      this.blobResult := blobResult;
      this.upsertResult := upsertResult;
      calls := [];
    }

    method FindLastVersionByModelId(fiscalCode: FiscalCode) returns (r: Lookup<Profile>)
      modifies this
      ensures r == profileResult
      ensures calls == old(calls) + [Call.FindLastVersionByModelId(fiscalCode)]
    {
      calls := calls + [Call.FindLastVersionByModelId(fiscalCode)];
      r := profileResult;
    }

    method FindServicePreference(fiscalCode: FiscalCode, serviceId: ServiceId, version: int) returns (r: Lookup<ServicePreference>)
      modifies this
      ensures r == preferenceResult
      ensures calls == old(calls) + [Call.FindServicePreference(fiscalCode, serviceId, version)]
    {
      calls := calls + [Call.FindServicePreference(fiscalCode, serviceId, version)];
      r := preferenceResult;
    }

    method StoreContentAsBlob(messageId: MessageId, content: MessageContent) returns (r: Write)
      modifies this
      ensures r == blobResult
      ensures calls == old(calls) + [Call.StoreContentAsBlob(messageId, content)]
    {
      calls := calls + [Call.StoreContentAsBlob(messageId, content)];
      r := blobResult;
    }

    method Upsert(message: NewMessageWithoutContent) returns (r: Write)
      modifies this
      ensures r == upsertResult
      ensures calls == old(calls) + [Call.Upsert(message)]
    {
      calls := calls + [Call.Upsert(message)];
      r := upsertResult;
    }
  }

  /** The calls the preference verdict makes: none in LEGACY mode, else one
      keyed read. */
  function PermissionCalls(fiscalCode: FiscalCode, serviceId: ServiceId, settings: ServicePreferencesSettings): (log: seq<Call>)
    ensures Count(log, PreferenceStore) == |log|
    ensures settings.mode == LEGACY <==> log == []
    ensures settings.mode != LEGACY ==> log == [Call.FindServicePreference(fiscalCode, serviceId, settings.version)]
  {
    if settings.mode == LEGACY then [] else [Call.FindServicePreference(fiscalCode, serviceId, settings.version)]
  }

  /** getPermissionToCreateMessage: LEGACY answers Left at once; otherwise one
      read of the preference keyed by fiscal code, service and version. */
  method GetPermissionToCreateMessage(b: Collaborators, fiscalCode: FiscalCode, serviceId: ServiceId, settings: ServicePreferencesSettings)
    returns (r: Either<string, bool>)
    modifies b
    ensures r == PermissionToCreateMessage(settings.mode, b.preferenceResult)
    ensures b.calls == old(b.calls) + PermissionCalls(fiscalCode, serviceId, settings)
  {
    if settings.mode == LEGACY {
      return Left(LEGACY_MODE_ERROR);
    }
    var maybeServicePref := b.FindServicePreference(fiscalCode, serviceId, settings.version);
    r := PermissionToCreateMessage(settings.mode, maybeServicePref);
  }

  /** What one run of the activity does: its outcome and the calls it made. */
  datatype Execution = Execution(outcome: Outcome, calls: seq<Call>)

  /** The message the upsert writes: the input with `isPending` false. */
  function Visible(message: NewMessageWithoutContent): (m: NewMessageWithoutContent)
    ensures m.isPending == Some(false)
    ensures m.(isPending := message.isPending) == message
  {
    message.(isPending := Some(false))
  }

  /** Persistence of an admitted message: the content goes to blob storage,
      and only then is the message upserted as no longer pending. */
  function Persist(event: CreatedMessageEvent, blocked: seq<Channel>, profile: Profile, blobResult: Write, upsertResult: Write): (e: Execution)
    ensures 1 <= |e.calls| <= 2
    ensures e.calls[0] == Call.StoreContentAsBlob(event.message.id, event.content)
    ensures |e.calls| == 2 <==> blobResult.Written?
    ensures |e.calls| == 2 ==>
              && e.calls[1].Upsert?
              && e.calls[1].message.isPending == Some(false)
              && e.calls[1].message.(isPending := event.message.isPending) == event.message
    ensures blobResult.WriteError? ==> e.outcome == Thrown(STORE_CONTENT_ERROR)
    ensures blobResult.Written? && upsertResult.WriteError? ==> e.outcome == Thrown(PENDING_UPDATE_ERROR)
    ensures e.outcome.Returned? <==> blobResult.Written? && upsertResult.Written?
    ensures e.outcome.Returned? ==> e.outcome.result == Success(blocked, profile)
  {
    var stored := [Call.StoreContentAsBlob(event.message.id, event.content)];
    if blobResult.WriteError? then Execution(Thrown(STORE_CONTENT_ERROR), stored)
    else
      var upserted := stored + [Call.Upsert(Visible(event.message))];
      if upsertResult.WriteError? then Execution(Thrown(PENDING_UPDATE_ERROR), upserted)
      else Execution(Returned(Success(blocked, profile)), upserted)
  }

  /** Everything after the profile was found: the master inbox flag, the
      admission decision and, when admitted, persistence. */
  function Admit(event: CreatedMessageEvent, profile: Profile, preferenceResult: Lookup<ServicePreference>, blobResult: Write, upsertResult: Write): (e: Execution)
    ensures profile.isInboxEnabled != Some(true) ==> e == Execution(Returned(Failure(MASTER_INBOX_DISABLED)), [])
    ensures e.outcome == Returned(Failure(MASTER_INBOX_DISABLED)) <==> profile.isInboxEnabled != Some(true)
    ensures profile.isInboxEnabled == Some(true) && Admission(profile, event.message.senderServiceId, preferenceResult) ==>
              var p := Persist(event, BlockedChannelsFor(profile, event.message.senderServiceId), profile, blobResult, upsertResult);
              e == Execution(p.outcome, PermissionCalls(event.message.fiscalCode, event.message.senderServiceId, profile.servicePreferencesSettings) + p.calls)
    ensures profile.servicePreferencesSettings.mode == LEGACY ==> Count(e.calls, PreferenceStore) == 0
    ensures e.outcome.Returned? && e.outcome.result.Failure? ==>
              e.outcome.result.reason == MASTER_INBOX_DISABLED || e.outcome.result.reason == SENDER_BLOCKED
    ensures e.outcome == Returned(Failure(SENDER_BLOCKED)) <==>
              profile.isInboxEnabled == Some(true) && !Admission(profile, event.message.senderServiceId, preferenceResult)
    ensures e.outcome == Returned(Failure(SENDER_BLOCKED)) ==> Count(e.calls, BlobStore) == 0 && Count(e.calls, MessageStore) == 0
    ensures e.outcome.Returned? && e.outcome.result.Success? ==>
              e.outcome.result == Success(BlockedChannelsFor(profile, event.message.senderServiceId), profile)
  {
    if profile.isInboxEnabled != Some(true) then Execution(Returned(Failure(MASTER_INBOX_DISABLED)), [])
    else
      var message := event.message;
      var blocked := BlockedChannelsFor(profile, message.senderServiceId);
      var settings := profile.servicePreferencesSettings;
      var asked := PermissionCalls(message.fiscalCode, message.senderServiceId, settings);
      var allowed := IsMessageStorageAllowed(PermissionToCreateMessage(settings.mode, preferenceResult), blocked);
      if !allowed then Execution(Returned(Failure(SENDER_BLOCKED)), asked)
      else
        var persisted := Persist(event, blocked, profile, blobResult, upsertResult);
        Execution(persisted.outcome, asked + persisted.calls)
  }

  /** One run of the activity on the decoded input (None when the input does
      not decode) and the answers its collaborators give. */
  function Run(input: Option<CreatedMessageEvent>, profileResult: Lookup<Profile>, preferenceResult: Lookup<ServicePreference>,
               blobResult: Write, upsertResult: Write): (e: Execution)
    ensures input.None? <==> e.outcome == Returned(Failure(BAD_DATA))
    ensures input.None? ==> e.calls == []
    ensures input.Some? ==> |e.calls| >= 1 && e.calls[0] == Call.FindLastVersionByModelId(input.value.message.fiscalCode)
    ensures input.Some? && profileResult.LookupError? ==>
              e == Execution(Thrown(PROFILE_FETCH_ERROR), [Call.FindLastVersionByModelId(input.value.message.fiscalCode)])
    ensures e.outcome == Returned(Failure(PROFILE_NOT_FOUND)) <==> input.Some? && profileResult == Retrieved(None)
    ensures e.outcome == Returned(Failure(PROFILE_NOT_FOUND)) ==> |e.calls| == 1
    ensures e.outcome != Returned(Failure(PERMANENT_ERROR))
    ensures e.outcome.Returned? && e.outcome.result.Success? ==>
              input.Some? && profileResult == Retrieved(Some(e.outcome.result.profile))
  {
    match input
    case None => Execution(Returned(Failure(BAD_DATA)), [])
    case Some(event) =>
      var fetched := [Call.FindLastVersionByModelId(event.message.fiscalCode)];
      match profileResult
      case LookupError(_) => Execution(Thrown(PROFILE_FETCH_ERROR), fetched)
      case Retrieved(None) => Execution(Returned(Failure(PROFILE_NOT_FOUND)), fetched)
      case Retrieved(Some(profile)) =>
        var admitted := Admit(event, profile, preferenceResult, blobResult, upsertResult);
        Execution(admitted.outcome, fetched + admitted.calls)
  }

  /** The activity handler: each collaborator is called in turn, with an
      early return or throw as soon as the outcome is known. */
  method Handle(b: Collaborators, input: Option<CreatedMessageEvent>) returns (r: Outcome)
    modifies b
    ensures r == Run(input, b.profileResult, b.preferenceResult, b.blobResult, b.upsertResult).outcome
    ensures b.calls == old(b.calls) + Run(input, b.profileResult, b.preferenceResult, b.blobResult, b.upsertResult).calls
  {
    if input.None? {
      return Returned(Failure(BAD_DATA));
    }
    var event := input.value;
    var message := event.message;

    var errorOrMaybeProfile := b.FindLastVersionByModelId(message.fiscalCode);
    if errorOrMaybeProfile.LookupError? {
      return Thrown(PROFILE_FETCH_ERROR);
    }
    if errorOrMaybeProfile.maybe.None? {
      return Returned(Failure(PROFILE_NOT_FOUND));
    }
    var profile := errorOrMaybeProfile.maybe.value;

    var isInboxEnabled := profile.isInboxEnabled == Some(true);
    if !isInboxEnabled {
      return Returned(Failure(MASTER_INBOX_DISABLED));
    }

    var blockedInboxOrChannels := BlockedChannelsFor(profile, message.senderServiceId);
    var permission := GetPermissionToCreateMessage(b, message.fiscalCode, message.senderServiceId, profile.servicePreferencesSettings);
    var isMessageStorageAllowedForService := IsMessageStorageAllowed(permission, blockedInboxOrChannels);
    if !isMessageStorageAllowedForService {
      return Returned(Failure(SENDER_BLOCKED));
    }

    var errorOrAttachment := b.StoreContentAsBlob(message.id, event.content);
    if errorOrAttachment.WriteError? {
      return Thrown(STORE_CONTENT_ERROR);
    }
    var updatedMessageOrError := b.Upsert(Visible(message));
    if updatedMessageOrError.WriteError? {
      return Thrown(PENDING_UPDATE_ERROR);
    }
    return Returned(Success(blockedInboxOrChannels, profile));
  }

  /** A disabled (or missing) master inbox flag ends the run right after the
      profile fetch, whatever the mode, the preference and storage answers. */
  lemma MasterInboxDisabledBeforeAnyOtherCall(event: CreatedMessageEvent, profile: Profile,
                                              preferenceResult: Lookup<ServicePreference>, blobResult: Write, upsertResult: Write)
    requires profile.isInboxEnabled != Some(true)
    ensures Run(Some(event), Retrieved(Some(profile)), preferenceResult, blobResult, upsertResult)
            == Execution(Returned(Failure(MASTER_INBOX_DISABLED)), [Call.FindLastVersionByModelId(event.message.fiscalCode)])
  {
  }

  /** In LEGACY mode the preference store is never read and the sender is
      blocked exactly when INBOX is in its legacy list. */
  lemma LegacyModeUsesOnlyTheBlockList(event: CreatedMessageEvent, profile: Profile,
                                       preferenceResult: Lookup<ServicePreference>, blobResult: Write, upsertResult: Write)
    requires profile.isInboxEnabled == Some(true)
    requires profile.servicePreferencesSettings.mode == LEGACY
    ensures var e := Run(Some(event), Retrieved(Some(profile)), preferenceResult, blobResult, upsertResult);
      && Count(e.calls, PreferenceStore) == 0
      && (e.outcome == Returned(Failure(SENDER_BLOCKED)) <==> INBOX in BlockedChannelsFor(profile, event.message.senderServiceId))
  {
  }

  /** In MANUAL or AUTO mode the preference is read once, keyed by fiscal
      code, sender service and preferences version; no record admits only in
      AUTO mode, a record admits when its isInboxEnabled is true. */
  lemma PreferenceModeDecidesAdmission(event: CreatedMessageEvent, profile: Profile,
                                       preferenceResult: Lookup<ServicePreference>, blobResult: Write, upsertResult: Write)
    requires profile.isInboxEnabled == Some(true)
    requires profile.servicePreferencesSettings.mode != LEGACY
    requires preferenceResult.Retrieved?
    ensures var e := Run(Some(event), Retrieved(Some(profile)), preferenceResult, blobResult, upsertResult);
      && e.calls[..2] == [Call.FindLastVersionByModelId(event.message.fiscalCode),
                          Call.FindServicePreference(event.message.fiscalCode, event.message.senderServiceId,
                                                     profile.servicePreferencesSettings.version)]
      && (preferenceResult.maybe.None? ==>
            (e.outcome == Returned(Failure(SENDER_BLOCKED)) <==> profile.servicePreferencesSettings.mode == MANUAL))
      && (preferenceResult.maybe.Some? ==>
            (e.outcome == Returned(Failure(SENDER_BLOCKED)) <==> !preferenceResult.maybe.value.isInboxEnabled))
  {
  }

  /** A failed preference read is not thrown: it falls back to the legacy
      INBOX block, and the run goes on as in LEGACY mode. */
  lemma PreferenceErrorIsNotThrown(event: CreatedMessageEvent, profile: Profile, kind: string,
                                   blobResult: Write, upsertResult: Write)
    requires profile.isInboxEnabled == Some(true)
    requires profile.servicePreferencesSettings.mode != LEGACY
    ensures var e := Run(Some(event), Retrieved(Some(profile)), LookupError(kind), blobResult, upsertResult);
      && Count(e.calls, PreferenceStore) == 1
      && (e.outcome == Returned(Failure(SENDER_BLOCKED)) <==> INBOX in BlockedChannelsFor(profile, event.message.senderServiceId))
      && (e.outcome.Thrown? ==> blobResult.WriteError? || upsertResult.WriteError?)
  {
  }

  /** A SUCCESS run made exactly these calls, in this order: the profile
      fetch, the preference read unless in LEGACY mode, the blob store of
      the unchanged content, and the upsert of the message made visible.
      Its block list is the legacy list and its profile the fetched one. */
  lemma SuccessfulRunCalls(input: Option<CreatedMessageEvent>, profileResult: Lookup<Profile>,
                           preferenceResult: Lookup<ServicePreference>, blobResult: Write, upsertResult: Write)
    requires Run(input, profileResult, preferenceResult, blobResult, upsertResult).outcome.Returned?
    requires Run(input, profileResult, preferenceResult, blobResult, upsertResult).outcome.result.Success?
    ensures var e := Run(input, profileResult, preferenceResult, blobResult, upsertResult);
      && input.Some? && profileResult == Retrieved(Some(e.outcome.result.profile))
      && var message := input.value.message;
      && var profile := e.outcome.result.profile;
      && profile.isInboxEnabled == Some(true)
      && e.outcome.result.blockedInboxOrChannels == BlockedChannelsFor(profile, message.senderServiceId)
      && e.calls == [Call.FindLastVersionByModelId(message.fiscalCode)]
                    + PermissionCalls(message.fiscalCode, message.senderServiceId, profile.servicePreferencesSettings)
                    + [Call.StoreContentAsBlob(message.id, input.value.content), Call.Upsert(Visible(message))]
  {
  }

  /** Persistence calls the blob store and the message store at most once
      each, and nothing else. */
  lemma PersistCallsEachStoreOnce(event: CreatedMessageEvent, blocked: seq<Channel>, profile: Profile,
                                                     blobResult: Write, upsertResult: Write, k: Collaborator)
    ensures Count(Persist(event, blocked, profile, blobResult, upsertResult).calls, k) <= (if k in {BlobStore, MessageStore} then 1 else 0)
  {
  }

  /** After the profile fetch, every other collaborator is called at most
      once and the profile store not again. */
  lemma AdmitCallsEachOnce(event: CreatedMessageEvent, profile: Profile, preferenceResult: Lookup<ServicePreference>,
                                              blobResult: Write, upsertResult: Write, k: Collaborator)
    ensures Count(Admit(event, profile, preferenceResult, blobResult, upsertResult).calls, k) <= (if k == ProfileStore then 0 else 1)
  {
  }

  /** An admitted message is written in order: a failed blob write throws
      before any upsert, a failed upsert throws after both writes, and only
      two successful writes return SUCCESS. */
  lemma AdmittedMessageIsPersisted(event: CreatedMessageEvent, profile: Profile,
                                   preferenceResult: Lookup<ServicePreference>, blobResult: Write, upsertResult: Write)
    requires profile.isInboxEnabled == Some(true)
    requires Admission(profile, event.message.senderServiceId, preferenceResult)
    ensures var e := Run(Some(event), Retrieved(Some(profile)), preferenceResult, blobResult, upsertResult);
      && (blobResult.WriteError? ==> e.outcome == Thrown(STORE_CONTENT_ERROR) && Count(e.calls, MessageStore) == 0)
      && (blobResult.Written? && upsertResult.WriteError? ==>
            e.outcome == Thrown(PENDING_UPDATE_ERROR) && Count(e.calls, BlobStore) == 1 && Count(e.calls, MessageStore) == 1)
      && (blobResult.Written? && upsertResult.Written? ==>
            e.outcome == Returned(Success(BlockedChannelsFor(profile, event.message.senderServiceId), profile)))
  {
    var fetched := [Call.FindLastVersionByModelId(event.message.fiscalCode)];
    var asked := PermissionCalls(event.message.fiscalCode, event.message.senderServiceId, profile.servicePreferencesSettings);
    var p := Persist(event, BlockedChannelsFor(profile, event.message.senderServiceId), profile, blobResult, upsertResult);
    var e := Run(Some(event), Retrieved(Some(profile)), preferenceResult, blobResult, upsertResult);
    assert e.calls == fetched + (asked + p.calls);
    forall k: Collaborator ensures Count(e.calls, k) == Count(fetched, k) + Count(asked, k) + Count(p.calls, k) {
      CountConcat(fetched, asked + p.calls, k);
      CountConcat(asked, p.calls, k);
    }
    if blobResult.Written? {
      assert p.calls == [p.calls[0]] + [p.calls[1]];
      CountConcat([p.calls[0]], [p.calls[1]], BlobStore);
      CountConcat([p.calls[0]], [p.calls[1]], MessageStore);
    }
  }

  /** Every collaborator is called at most once per run, as the handler's
      tests count them. */
  lemma {:induction false} AtMostOneCallEach(input: Option<CreatedMessageEvent>, profileResult: Lookup<Profile>,
                                             preferenceResult: Lookup<ServicePreference>, blobResult: Write, upsertResult: Write,
                                             k: Collaborator)
    ensures Count(Run(input, profileResult, preferenceResult, blobResult, upsertResult).calls, k) <= 1
  {
    if input.Some? && profileResult.Retrieved? && profileResult.maybe.Some? {
      var event, profile := input.value, profileResult.maybe.value;
      var fetched := [Call.FindLastVersionByModelId(event.message.fiscalCode)];
      CountConcat(fetched, Admit(event, profile, preferenceResult, blobResult, upsertResult).calls, k);
      AdmitCallsEachOnce(event, profile, preferenceResult, blobResult, upsertResult, k);
    }
  }

  /** Two profiles that differ only in their preference settings get the
      same blocked channels back whenever both runs succeed. */
  lemma BlockedChannelsDoNotDependOnMode(event: CreatedMessageEvent, profile: Profile, settings: ServicePreferencesSettings,
                                         pref1: Lookup<ServicePreference>, pref2: Lookup<ServicePreference>,
                                         blobResult: Write, upsertResult: Write)
    requires Run(Some(event), Retrieved(Some(profile)), pref1, blobResult, upsertResult).outcome.Returned?
    requires Run(Some(event), Retrieved(Some(profile)), pref1, blobResult, upsertResult).outcome.result.Success?
    requires Run(Some(event), Retrieved(Some(profile.(servicePreferencesSettings := settings))), pref2, blobResult, upsertResult).outcome.Returned?
    requires Run(Some(event), Retrieved(Some(profile.(servicePreferencesSettings := settings))), pref2, blobResult, upsertResult).outcome.result.Success?
    ensures Run(Some(event), Retrieved(Some(profile)), pref1, blobResult, upsertResult).outcome.result.blockedInboxOrChannels
         == Run(Some(event), Retrieved(Some(profile.(servicePreferencesSettings := settings))), pref2, blobResult, upsertResult).outcome.result.blockedInboxOrChannels
  {
  }

  /** In AUTO mode the legacy list is still what a SUCCESS returns, even when
      it blocks INBOX and admission came from the preference mode: with no
      preference record the message is stored and `[INBOX]` is returned. */
  lemma AutoModeReturnsLegacyBlockList(event: CreatedMessageEvent, profile: Profile)
    requires profile.isInboxEnabled == Some(true)
    requires profile.servicePreferencesSettings.mode == AUTO
    requires profile.blockedInboxOrChannels == Some(map[event.message.senderServiceId := [INBOX]])
    ensures Run(Some(event), Retrieved(Some(profile)), Retrieved(None), Written, Written).outcome
            == Returned(Success([INBOX], profile))
  {
  }
}
