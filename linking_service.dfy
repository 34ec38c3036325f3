/** `LinkingService.handleLinkIntent`: links this device to an existing
    account. It asks the server for a provisioning uuid, announces a
    `tsdevice:` link carrying that uuid and a temporary public key, finishes
    the registration, uploads the push token and prekeys, writes the account
    into preferences, saves its own identity, and enqueues the jobs that pull
    the account's state from the other devices.

    Every step runs inside one catch-all: the first failure ends the method
    normally, and whatever was written before it stays written. The run is
    cut into seven stages, each ending at a step that can fail; `Reached`
    says how many stages after the first ran to their end. */
module LinkingService {
  import opened Common
  import opened LocalState
  import opened UpdateContactJob
  import ContactStream

  const LINKING_EVENT := "org.thoughtcrime.securesms.LINKING_EVENT"
  const LINKING_PUBKEY := "org.thoughtcrime.securesms.LINKING_PUBKEY"

  const LINK_PREFIX := "tsdevice:/?uuid="
  const KEY_SEPARATOR := "&pub_key="

  /** The last stage: the one that enqueues the jobs and reports success. */
  const LastStage: nat := 6

  /** `NewDeviceRegistrationReturn`: what the server assigns the new device. */
  datatype NewDeviceRegistration = NewDeviceRegistration(deviceId: int, number: string,
                                                         identity: IdentityKeyPair, profileKey: Bytes)

  /** The account-manager requests that can throw. */
  datatype RemoteStep =
    | NewDeviceUuidStep
    | FinishRegistrationStep
    | GcmIdStep
    | PreKeyUploadStep
    | SenderCertificateStep

  /** Everything one run takes from outside the method: the secrets and keys
      generated locally, the server's replies, the push token, the clock,
      and which remote requests throw. */
  datatype LinkEnv = LinkEnv(
    password: string,
    temporaryIdentity: IdentityKeyPair,
    deviceUuid: string,
    signalingKey: string,
    registrationId: int,
    randomUuid: string,
    registration: NewDeviceRegistration,
    fcmToken: Option<string>,
    oneTimePreKeys: seq<PreKeyRecord>,
    signedPreKey: SignedPreKeyRecord,
    senderCertificate: Bytes,
    now: int,
    failing: set<RemoteStep>)

  /** The provisioning link the primary device scans. */
  function DeviceLink(codecs: Codecs, uuid: string, publicKey: Bytes): (link: string)
    ensures |link| >= |LINK_PREFIX| && link[..|LINK_PREFIX|] == LINK_PREFIX
  {
    LINK_PREFIX + codecs.urlEncode(uuid) + KEY_SEPARATOR
      + codecs.urlEncode(codecs.encodeBytesWithoutPadding(publicKey))
  }

  /** The first position of `c` in `s`. */
  function IndexOf(s: string, c: char): (r: Option<nat>)
    ensures r.None? <==> c !in s
    ensures r.Some? ==> r.value < |s| && s[r.value] == c && c !in s[..r.value]
  {
    if s == [] then None
    else if s[0] == c then Some(0)
    else match IndexOf(s[1..], c)
      case None => None
      case Some(i) =>
        assert s[..i + 1] == [s[0]] + s[1..][..i];
        Some(i + 1)
  }

  /** What the scanning device reads out of a link: the provisioning uuid
      and the Base64 public key, each URL-decoded. */
  function ParseDeviceLink(codecs: Codecs, link: string): Option<(string, string)>
  {
    if |link| < |LINK_PREFIX| || link[..|LINK_PREFIX|] != LINK_PREFIX then None
    else
      var rest := link[|LINK_PREFIX|..];
      match IndexOf(rest, '&')
      case None => None
      case Some(i) =>
        if |rest| - i < |KEY_SEPARATOR| || rest[i..i + |KEY_SEPARATOR|] != KEY_SEPARATOR then None
        else match (codecs.urlDecode(rest[..i]), codecs.urlDecode(rest[i + |KEY_SEPARATOR|..]))
          case (Some(uuid), Some(key)) => Some((uuid, key))
          case _ => None
  }

  /** The link carries exactly the provisioning uuid and the unpadded Base64
      temporary public key: a reader that splits it at the first `&` gets
      both back. */
  lemma {:induction false} DeviceLinkRoundTrip(codecs: Codecs, uuid: string, publicKey: Bytes)
    requires UrlCodecLaws(codecs)
    ensures ParseDeviceLink(codecs, DeviceLink(codecs, uuid, publicKey))
            == Some((uuid, codecs.encodeBytesWithoutPadding(publicKey)))
  {
    var a := codecs.urlEncode(uuid);
    var b := codecs.urlEncode(codecs.encodeBytesWithoutPadding(publicKey));
    var link := DeviceLink(codecs, uuid, publicKey);
    var rest := a + KEY_SEPARATOR + b;
    assert link == LINK_PREFIX + rest;
    assert link[|LINK_PREFIX|..] == rest;
    assert '&' !in a && codecs.urlDecode(a) == Some(uuid);
    assert codecs.urlDecode(b) == Some(codecs.encodeBytesWithoutPadding(publicKey));
    var i := IndexOf(rest, '&');
    assert rest[|a|] == '&';
    assert i.Some?;
    assert i.value == |a|;
    assert rest[..|a|] == a;
    assert rest[|a|..|a| + |KEY_SEPARATOR|] == KEY_SEPARATOR;
    assert rest[|a| + |KEY_SEPARATOR|..] == b;
  }

  /** The device name sent with the registration. */
  function DeviceName(env: LinkEnv): (name: string)
    ensures |name| >= 12 && name[..12] == "androidtest-"
  {
    "androidtest-" + env.randomUuid
  }

  /** The request that finishes the registration with the temporary
      identity, without SMS support and with message fetching. */
  function FinishRequest(env: LinkEnv): (call: AccountCall)
    ensures call.FinishNewDeviceRegistration? && !call.supportsSms && call.fetchesMessages
    ensures call.signalingKey == env.signalingKey && call.registrationId == env.registrationId
  {
    FinishNewDeviceRegistration(env.temporaryIdentity, env.signalingKey, false, true,
                                env.registrationId, DeviceName(env))
  }

  /** The jobs a completed link enqueues, in order: the own profile, then the
      group, contact, blocked and configuration sync requests. */
  function SetupJobs(env: LinkEnv): (jobs: seq<Job>)
    ensures |jobs| == 5 && jobs[0] == RetrieveProfile(env.registration.number)
    ensures jobs[1..] == [SyncRequest(Groups), SyncRequest(Contacts), SyncRequest(Blocked), SyncRequest(Configuration)]
  {
    [RetrieveProfile(env.registration.number), SyncRequest(Groups), SyncRequest(Contacts),
     SyncRequest(Blocked), SyncRequest(Configuration)]
  }

  function EnqueueAll(jobs: seq<Job>): (effects: seq<Effect>)
    ensures |effects| == |jobs|
    ensures forall i :: 0 <= i < |jobs| ==> effects[i] == Enqueue(jobs[i])
  {
    seq(|jobs|, i requires 0 <= i < |jobs| => Enqueue(jobs[i]))
  }

  lemma {:induction false} EnqueuedJobsOfEnqueueAll(jobs: seq<Job>)
    ensures EnqueuedJobs(EnqueueAll(jobs)) == jobs
    decreases |jobs|
  {
    if jobs != [] {
      assert EnqueueAll(jobs)[1..] == EnqueueAll(jobs[1..]);
      EnqueuedJobsOfEnqueueAll(jobs[1..]);
    }
  }

  /** The effects of stage `i`, each ending with the step that may cut the
      run short (the last one with the success broadcast). */
  function Segment(env: LinkEnv, codecs: Codecs, i: nat): (s: seq<Effect>)
    requires i <= LastStage
    ensures s != []
  {
    var pw, reg := env.password, env.registration;
    if i == 0 then
      [AccountRequest(pw, GetNewDeviceUuid)]
    else if i == 1 then
      [Broadcast(LINKING_PUBKEY, Some(DeviceLink(codecs, env.deviceUuid, env.temporaryIdentity.publicKey))),
       AccountRequest(pw, FinishRequest(env))]
    else if i == 2 then
      [AccountRequest(pw, SetGcmId(env.fcmToken))]
    else if i == 3 then
      [SetPref(DeviceId, IntPref(reg.deviceId)),
       SetPref(LocalNumber, StringPref(reg.number)),
       SetPref(IdentityKeys, KeyPairPref(reg.identity)),
       AccountRequest(pw, SetPreKeys(reg.identity.publicKey, env.signedPreKey, env.oneTimePreKeys))]
    else if i == 4 then
      [SetPref(Verifying, BoolPref(false)),
       SetPref(PushRegistered, BoolPref(true)),
       SetPref(PushServerPassword, StringPref(pw)),
       SetPref(SignedPreKeyRegistered, BoolPref(true)),
       SetPref(PromptedPushRegistration, BoolPref(true)),
       SetPref(WebsocketRegistered, BoolPref(true))]
    else if i == 5 then
      [SetPref(FcmToken, StringPref(env.fcmToken.GetOr(""))),
       SetPref(FcmDisabled, BoolPref(false)),
       SetPref(MultiDevice, BoolPref(true)),
       SetPref(LocalRegistrationId, IntPref(env.registrationId)),
       SetPref(UnauthorizedReceived, BoolPref(false)),
       SetPref(ProfileKey, StringPref(codecs.encodeBytes(reg.profileKey))),
       AccountRequest(pw, GetSenderCertificate)]
    else
      [SetPref(UnidentifiedAccessCertificate, BytesPref(env.senderCertificate)),
       SetPref(SignalingKey, StringPref(env.signalingKey))]
      + EnqueueAll(SetupJobs(env))
      + [Broadcast(LINKING_EVENT, None)]
  }

  /** How many stages after the first run to their end: the run stops at the
      first request that throws, or at the missing push token, which
      `Optional.get` rejects after the registration flags are written. */
  function Reached(env: LinkEnv): (k: nat)
    ensures k <= LastStage
    ensures env.fcmToken.None? ==> k <= 4
  {
    if NewDeviceUuidStep in env.failing then 0
    else if FinishRegistrationStep in env.failing then 1
    else if GcmIdStep in env.failing then 2
    else if PreKeyUploadStep in env.failing then 3
    else if env.fcmToken.None? then 4
    else if SenderCertificateStep in env.failing then 5
    else 6
  }

  /** A run completes exactly when no request throws and a push token was
      found. */
  lemma CompletesIffNothingFails(env: LinkEnv)
    ensures Reached(env) == LastStage <==> env.failing == {} && env.fcmToken.Some?
  {
    if Reached(env) == LastStage && env.failing != {} {
      var x :| x in env.failing;
      match x
      case NewDeviceUuidStep =>
      case FinishRegistrationStep =>
      case GcmIdStep =>
      case PreKeyUploadStep =>
      case SenderCertificateStep =>
    }
  }

  /** The effects of stages 0 to `k`, in order. */
  function Trace(env: LinkEnv, codecs: Codecs, k: nat): seq<Effect>
    requires k <= LastStage
  {
    if k == 0 then Segment(env, codecs, 0) else Trace(env, codecs, k - 1) + Segment(env, codecs, k)
  }

  /** Everything one run of `handleLinkIntent` does, in order. */
  function LinkTrace(env: LinkEnv, codecs: Codecs): seq<Effect>
  {
    Trace(env, codecs, Reached(env))
  }

  /** The row saved for the account's own number: its identity key,
      verified, first use, approved. */
  function SelfIdentity(env: LinkEnv): (r: IdentityRecord)
    ensures r.identityKey == env.registration.identity.publicKey
    ensures r.status == Some(Verified) && r.firstUse && r.nonBlockingApproval && r.timestamp == env.now
  {
    IdentityRecord(env.registration.identity.publicKey, Some(Verified), true, env.now, true)
  }

  /** Stage 0: ask the server for a provisioning uuid. */
  method RequestDeviceUuid(dev: Device, env: LinkEnv, codecs: Codecs)
    modifies dev`log
    ensures dev.log == old(dev.log) + Segment(env, codecs, 0)
  {
    dev.Emit(AccountRequest(env.password, GetNewDeviceUuid));
  }

  /** Stage 1: announce the device link, then finish the registration with
      a fresh signaling key, registration id and device name. */
  method AnnounceAndFinish(dev: Device, env: LinkEnv, codecs: Codecs)
    modifies dev`log
    ensures dev.log == old(dev.log) + Segment(env, codecs, 1)
  {
    var temporaryIdentity := env.temporaryIdentity;
    var link := DeviceLink(codecs, env.deviceUuid, temporaryIdentity.publicKey);
    dev.Emit(Broadcast(LINKING_PUBKEY, Some(link)));
    var signalingKey := env.signalingKey;
    var registrationId := env.registrationId;
    var deviceName := "androidtest-" + env.randomUuid;
    dev.Emit(AccountRequest(env.password, FinishNewDeviceRegistration(temporaryIdentity, signalingKey, false, true,
                                                                      registrationId, deviceName)));
  }

  /** Stage 2: hand the push token, present or not, to the server. */
  method UploadPushToken(dev: Device, env: LinkEnv, codecs: Codecs)
    modifies dev`log
    ensures dev.log == old(dev.log) + Segment(env, codecs, 2)
  {
    dev.Emit(AccountRequest(env.password, SetGcmId(env.fcmToken)));
  }

  /** Stage 3: store the device id, the number and the identity keys the
      server assigned, then upload the prekeys. */
  method StoreAccountAndUploadPreKeys(dev: Device, env: LinkEnv, codecs: Codecs)
    modifies dev`log
    ensures dev.log == old(dev.log) + Segment(env, codecs, 3)
  {
    var ret := env.registration;
    dev.Emit(SetPref(DeviceId, IntPref(ret.deviceId)));
    dev.Emit(SetPref(LocalNumber, StringPref(ret.number)));
    var retIdentity := ret.identity;
    dev.Emit(SetPref(IdentityKeys, KeyPairPref(retIdentity)));
    dev.Emit(AccountRequest(env.password, SetPreKeys(retIdentity.publicKey, env.signedPreKey, env.oneTimePreKeys)));
  }

  /** Stage 4: save the own identity as verified, then the registration
      flags and the push password. */
  method SaveSelfAndMarkRegistered(dev: Device, env: LinkEnv, codecs: Codecs)
    modifies dev`log, dev`identities
    ensures dev.log == old(dev.log) + Segment(env, codecs, 4)
    ensures dev.identities == old(dev.identities)[env.registration.number := SelfIdentity(env)]
  {
    var ret := env.registration;
    dev.SaveIdentity(ret.number, IdentityRecord(ret.identity.publicKey, Some(Verified), true, env.now, true));
    dev.Emit(SetPref(Verifying, BoolPref(false)));
    dev.Emit(SetPref(PushRegistered, BoolPref(true)));
    dev.Emit(SetPref(PushServerPassword, StringPref(env.password)));
    dev.Emit(SetPref(SignedPreKeyRegistered, BoolPref(true)));
    dev.Emit(SetPref(PromptedPushRegistration, BoolPref(true)));
    dev.Emit(SetPref(WebsocketRegistered, BoolPref(true)));
  }

  /** Stage 5, entered only with a push token: the token, the device
      settings and the profile key, then the sender certificate request. */
  method StoreSettings(dev: Device, env: LinkEnv, codecs: Codecs)
    requires env.fcmToken.Some?
    modifies dev`log
    ensures dev.log == old(dev.log) + Segment(env, codecs, 5)
  {
    dev.Emit(SetPref(FcmToken, StringPref(env.fcmToken.value)));
    dev.Emit(SetPref(FcmDisabled, BoolPref(false)));
    dev.Emit(SetPref(MultiDevice, BoolPref(true)));
    dev.Emit(SetPref(LocalRegistrationId, IntPref(env.registrationId)));
    dev.Emit(SetPref(UnauthorizedReceived, BoolPref(false)));
    dev.Emit(SetPref(ProfileKey, StringPref(codecs.encodeBytes(env.registration.profileKey))));
    dev.Emit(AccountRequest(env.password, GetSenderCertificate));
  }

  /** Stage 6: store the certificate and the signaling key, give self its
      profile key, enqueue the setup jobs, and report success. */
  method CompleteLink(dev: Device, env: LinkEnv, codecs: Codecs)
    modifies dev`log, dev`recipients
    ensures dev.log == old(dev.log) + Segment(env, codecs, 6)
    ensures dev.recipients == WithProfileKey(old(dev.recipients), env.registration.number, env.registration.profileKey)
  {
    var ret := env.registration;
    var username := ret.number;
    dev.Emit(SetPref(UnidentifiedAccessCertificate, BytesPref(env.senderCertificate)));
    dev.Emit(SetPref(SignalingKey, StringPref(env.signalingKey)));
    dev.SetProfileKey(username, ret.profileKey);
    dev.Emit(Enqueue(RetrieveProfile(username)));
    dev.Emit(Enqueue(SyncRequest(Groups)));
    dev.Emit(Enqueue(SyncRequest(Contacts)));
    dev.Emit(Enqueue(SyncRequest(Blocked)));
    dev.Emit(Enqueue(SyncRequest(Configuration)));
    dev.Emit(Broadcast(LINKING_EVENT, None));
  }

  /** `handleLinkIntent`. Each failure ends the method normally (the
      catch-all only logs); the effects before it stay. */
  method HandleLinkIntent(dev: Device, env: LinkEnv, codecs: Codecs)
    modifies dev
    ensures dev.log == old(dev.log) + LinkTrace(env, codecs)
    ensures dev.identities ==
              if Reached(env) >= 4 then old(dev.identities)[env.registration.number := SelfIdentity(env)]
              else old(dev.identities)
    ensures dev.recipients ==
              if Reached(env) == LastStage
              then WithProfileKey(old(dev.recipients), env.registration.number, env.registration.profileKey)
              else old(dev.recipients)
  {
    ghost var before := dev.log;
    RequestDeviceUuid(dev, env, codecs);
    if NewDeviceUuidStep in env.failing {
      assert Reached(env) == 0;
      return;
    }
    AnnounceAndFinish(dev, env, codecs);
    NextStage(before, env, codecs, 1);
    if FinishRegistrationStep in env.failing {
      assert Reached(env) == 1;
      return;
    }
    UploadPushToken(dev, env, codecs);
    NextStage(before, env, codecs, 2);
    if GcmIdStep in env.failing {
      assert Reached(env) == 2;
      return;
    }
    StoreAccountAndUploadPreKeys(dev, env, codecs);
    NextStage(before, env, codecs, 3);
    if PreKeyUploadStep in env.failing {
      assert Reached(env) == 3;
      return;
    }
    SaveSelfAndMarkRegistered(dev, env, codecs);
    NextStage(before, env, codecs, 4);
    if env.fcmToken.None? {
      assert Reached(env) == 4;
      return;
    }
    StoreSettings(dev, env, codecs);
    NextStage(before, env, codecs, 5);
    if SenderCertificateStep in env.failing {
      assert Reached(env) == 5;
      return;
    }
    CompleteLink(dev, env, codecs);
    NextStage(before, env, codecs, 6);
    assert Reached(env) == LastStage;
  }

  /** Appending stage `k` to the effects of the stages before it gives the
      effects of the first `k` stages. */
  lemma NextStage(before: seq<Effect>, env: LinkEnv, codecs: Codecs, k: nat)
    requires 0 < k <= LastStage
    ensures before + Trace(env, codecs, k - 1) + Segment(env, codecs, k) == before + Trace(env, codecs, k)
  {
  }

  /** The effects of a run that stops early are the beginning of those of a
      run that completes. */
  lemma {:induction false} TracePrefix(env: LinkEnv, codecs: Codecs, j: nat, k: nat)
    requires j <= k <= LastStage
    ensures Trace(env, codecs, j) <= Trace(env, codecs, k)
    ensures j < k ==> |Trace(env, codecs, j)| < |Trace(env, codecs, k)|
    decreases k
  {
    if j < k {
      TracePrefix(env, codecs, j, k - 1);
    }
  }

  /** A run that stops early did a strict beginning of what a complete run
      does; it did all of it exactly when it completed. */
  lemma LinkTraceIsPrefixOfCompleteRun(env: LinkEnv, codecs: Codecs)
    ensures LinkTrace(env, codecs) <= Trace(env, codecs, LastStage)
    ensures LinkTrace(env, codecs) == Trace(env, codecs, LastStage) <==> Reached(env) == LastStage
  {
    TracePrefix(env, codecs, Reached(env), LastStage);
  }

  /** Every stage makes at most one account-manager request, as its last
      effect: the stages that end at a request are exactly those other than
      the one that ends at the push-token check and the last one. So a
      failing request cuts the run right after it. */
  lemma StagesEndAtRequests(env: LinkEnv, codecs: Codecs, i: nat)
    requires i <= LastStage
    ensures var s := Segment(env, codecs, i);
            && (forall k :: 0 <= k < |s| - 1 ==> !s[k].AccountRequest?)
            && (s[|s| - 1].AccountRequest? <==> i != 4 && i != LastStage)
  {
  }

  /** Nothing before the last stage enqueues a job or reports success. */
  lemma {:induction false} EarlyStagesQuiet(env: LinkEnv, codecs: Codecs, k: nat)
    requires k < LastStage
    ensures forall e :: e in Trace(env, codecs, k) ==> !e.Enqueue? && e != Broadcast(LINKING_EVENT, None)
  {
    if k > 0 {
      EarlyStagesQuiet(env, codecs, k - 1);
    }
  }

  /** The last stage: two preference writes, the setup jobs, the success
      broadcast. */
  lemma LastSegmentShape(env: LinkEnv, codecs: Codecs)
    ensures var s := Segment(env, codecs, LastStage);
            && |s| == 8 && s[0].SetPref? && s[1].SetPref?
            && s[2..7] == EnqueueAll(SetupJobs(env))
            && s[7] == Broadcast(LINKING_EVENT, None)
  {
  }

  /** `LINKING_EVENT` is broadcast exactly when every step succeeded, and the
      job manager receives the setup jobs, in order, exactly then; a failed
      run enqueues nothing. */
  lemma LinkingEventOnlyOnSuccess(env: LinkEnv, codecs: Codecs)
    ensures Broadcast(LINKING_EVENT, None) in LinkTrace(env, codecs)
            <==> env.failing == {} && env.fcmToken.Some?
    ensures EnqueuedJobs(LinkTrace(env, codecs)) ==
              if env.failing == {} && env.fcmToken.Some? then SetupJobs(env) else []
  {
    CompletesIffNothingFails(env);
    var k := Reached(env);
    if k < LastStage {
      EarlyStagesQuiet(env, codecs, k);
    } else {
      var early, last := Trace(env, codecs, LastStage - 1), Segment(env, codecs, LastStage);
      EarlyStagesQuiet(env, codecs, LastStage - 1);
      LastSegmentShape(env, codecs);
      assert last[7] == Broadcast(LINKING_EVENT, None);
      assert last == last[..2] + EnqueueAll(SetupJobs(env)) + [last[7]];
      EnqueuedJobsAppend(early, last);
      EnqueuedJobsAppend(last[..2] + EnqueueAll(SetupJobs(env)), [last[7]]);
      EnqueuedJobsAppend(last[..2], EnqueueAll(SetupJobs(env)));
      EnqueuedJobsOfEnqueueAll(SetupJobs(env));
      assert EnqueuedJobs(last[..2]) == [];
      assert EnqueuedJobs([last[7]]) == [];
    }
  }

  /** No preference is written after the first job is enqueued: the jobs
      see the account fully stored. */
  lemma JobsFollowPreferences(env: LinkEnv, codecs: Codecs)
    ensures var t := LinkTrace(env, codecs);
            forall i, j :: 0 <= i < j < |t| && t[i].Enqueue? ==> !t[j].SetPref?
  {
    var t := LinkTrace(env, codecs);
    if Reached(env) < LastStage {
      EarlyStagesQuiet(env, codecs, Reached(env));
      forall i | 0 <= i < |t|
        ensures !t[i].Enqueue?
      {
        assert t[i] in t;
      }
    } else {
      var early, last := Trace(env, codecs, LastStage - 1), Segment(env, codecs, LastStage);
      EarlyStagesQuiet(env, codecs, LastStage - 1);
      LastSegmentShape(env, codecs);
      forall i, j | 0 <= i < j < |t| && t[i].Enqueue?
        ensures !t[j].SetPref?
      {
        assert t[j] == last[j - |early|];
      }
    }
  }

  /** The stage in which the run writes `key`: nothing is written before
      the registration is finished and the push token handed over. */
  function WrittenIn(key: PrefKey): (i: nat)
    ensures 3 <= i <= LastStage
  {
    match key
    case DeviceId | LocalNumber | IdentityKeys => 3
    case Verifying | PushRegistered | PushServerPassword | SignedPreKeyRegistered
       | PromptedPushRegistration | WebsocketRegistered => 4
    case FcmToken | FcmDisabled | MultiDevice | LocalRegistrationId | UnauthorizedReceived | ProfileKey => 5
    case UnidentifiedAccessCertificate | SignalingKey => 6
  }

  /** The value the run writes to `key`. */
  function LinkPrefValue(env: LinkEnv, codecs: Codecs, key: PrefKey): PrefValue
  {
    var reg := env.registration;
    match key
    case DeviceId => IntPref(reg.deviceId)
    case LocalNumber => StringPref(reg.number)
    case IdentityKeys => KeyPairPref(reg.identity)
    case Verifying => BoolPref(false)
    case PushRegistered => BoolPref(true)
    case PushServerPassword => StringPref(env.password)
    case SignedPreKeyRegistered => BoolPref(true)
    case PromptedPushRegistration => BoolPref(true)
    case WebsocketRegistered => BoolPref(true)
    case FcmToken => StringPref(env.fcmToken.GetOr(""))
    case FcmDisabled => BoolPref(false)
    case MultiDevice => BoolPref(true)
    case LocalRegistrationId => IntPref(env.registrationId)
    case UnauthorizedReceived => BoolPref(false)
    case ProfileKey => StringPref(codecs.encodeBytes(reg.profileKey))
    case UnidentifiedAccessCertificate => BytesPref(env.senderCertificate)
    case SignalingKey => StringPref(env.signalingKey)
  }

  /** Each stage writes a key only in the stage `WrittenIn` names, and only
      with the value `LinkPrefValue` names. */
  lemma SegmentWrites(env: LinkEnv, codecs: Codecs, i: nat, key: PrefKey)
    requires i <= LastStage
    ensures WritesOnly(Segment(env, codecs, i), key, LinkPrefValue(env, codecs, key))
    ensures i == WrittenIn(key) ==> SetPref(key, LinkPrefValue(env, codecs, key)) in Segment(env, codecs, i)
    ensures i != WrittenIn(key) ==> Untouched(Segment(env, codecs, i), key)
  {
    var s := Segment(env, codecs, i);
    var v := LinkPrefValue(env, codecs, key);
    if i == LastStage {
      LastSegmentShape(env, codecs);
    }
    forall e | e in s && e.SetPref? && e.key == key
      ensures e.value == v && i == WrittenIn(key)
    {
    }
  }

  lemma {:induction false} TraceWrites(env: LinkEnv, codecs: Codecs, k: nat, key: PrefKey)
    requires k <= LastStage
    ensures WritesOnly(Trace(env, codecs, k), key, LinkPrefValue(env, codecs, key))
    ensures k >= WrittenIn(key) ==> SetPref(key, LinkPrefValue(env, codecs, key)) in Trace(env, codecs, k)
    ensures k < WrittenIn(key) ==> Untouched(Trace(env, codecs, k), key)
  {
    SegmentWrites(env, codecs, k, key);
    if k > 0 {
      TraceWrites(env, codecs, k - 1, key);
    }
  }

  /** What every preference holds after a run: the value the run writes to
      it if the run got that far, and otherwise what it held before. Writes
      are never undone, and a key is never written with two values. */
  lemma StoredPrefsAfterLinking(before: seq<Effect>, env: LinkEnv, codecs: Codecs, key: PrefKey)
    ensures StoredPref(before + LinkTrace(env, codecs), key) ==
              if Reached(env) >= WrittenIn(key) then Some(LinkPrefValue(env, codecs, key))
              else StoredPref(before, key)
  {
    var t := LinkTrace(env, codecs);
    TraceWrites(env, codecs, Reached(env), key);
    if Reached(env) >= WrittenIn(key) {
      StoredAfterWrites(before, t, key, LinkPrefValue(env, codecs, key));
    } else {
      StoredPastUntouched(before, t, key);
    }
  }

  /** No rollback: once the prekey upload has been attempted, the device
      id, the number and the identity keys the server assigned stay stored,
      whatever fails afterwards. */
  lemma NoRollback(before: seq<Effect>, env: LinkEnv, codecs: Codecs)
    requires Reached(env) >= 3
    ensures var t := before + LinkTrace(env, codecs);
            && StoredPref(t, DeviceId) == Some(IntPref(env.registration.deviceId))
            && StoredPref(t, LocalNumber) == Some(StringPref(env.registration.number))
            && StoredPref(t, IdentityKeys) == Some(KeyPairPref(env.registration.identity))
  {
    StoredPrefsAfterLinking(before, env, codecs, DeviceId);
    StoredPrefsAfterLinking(before, env, codecs, LocalNumber);
    StoredPrefsAfterLinking(before, env, codecs, IdentityKeys);
  }

  /** A missing push token stops the run after the registration flags:
      no job is enqueued, success is not reported, and the stored token is
      left as it was. */
  lemma MissingPushTokenStopsBeforeJobs(before: seq<Effect>, env: LinkEnv, codecs: Codecs)
    requires env.fcmToken.None?
    ensures EnqueuedJobs(LinkTrace(env, codecs)) == []
    ensures Broadcast(LINKING_EVENT, None) !in LinkTrace(env, codecs)
    ensures StoredPref(before + LinkTrace(env, codecs), FcmToken) == StoredPref(before, FcmToken)
  {
    LinkingEventOnlyOnSuccess(env, codecs);
    StoredPrefsAfterLinking(before, env, codecs, FcmToken);
  }

  lemma {:induction false} RequestsUsePassword(env: LinkEnv, codecs: Codecs, k: nat)
    requires k <= LastStage
    ensures forall e :: e in Trace(env, codecs, k) && e.AccountRequest? ==> e.password == env.password
  {
    if k == LastStage {
      LastSegmentShape(env, codecs);
    }
    if k > 0 {
      RequestsUsePassword(env, codecs, k - 1);
    }
  }

  /** The request that finishes the registration. */
  predicate IsFinish(e: Effect) {
    e.AccountRequest? && e.call.FinishNewDeviceRegistration?
  }

  /** After a complete run the stored credentials are the ones the server
      saw: the push password is the one every request was made with, and
      the signaling key and registration id are the ones the registration
      was finished with. */
  lemma StoredCredentialsMatchRequests(before: seq<Effect>, env: LinkEnv, codecs: Codecs)
    requires Reached(env) == LastStage
    ensures var t := LinkTrace(env, codecs);
            var stored := before + t;
            && (forall e :: e in t && e.AccountRequest? ==>
                  StoredPref(stored, PushServerPassword) == Some(StringPref(e.password)))
            && (forall e :: e in t && IsFinish(e) ==>
                  && StoredPref(stored, SignalingKey) == Some(StringPref(e.call.signalingKey))
                  && StoredPref(stored, LocalRegistrationId) == Some(IntPref(e.call.registrationId)))
    ensures AccountRequest(env.password, FinishRequest(env)) in LinkTrace(env, codecs)
  {
    var t := LinkTrace(env, codecs);
    StoredPrefsAfterLinking(before, env, codecs, PushServerPassword);
    StoredPrefsAfterLinking(before, env, codecs, SignalingKey);
    StoredPrefsAfterLinking(before, env, codecs, LocalRegistrationId);
    RequestsUsePassword(env, codecs, LastStage);
    FinishOnlyInStageOne(env, codecs, LastStage);
    TracePrefix(env, codecs, 1, LastStage);
    assert t[2] == AccountRequest(env.password, FinishRequest(env));
    forall e | e in t && IsFinish(e)
      ensures e == t[2]
    {
      var i :| 0 <= i < |t| && t[i] == e;
    }
  }

  lemma {:induction false} FinishOnlyInStageOne(env: LinkEnv, codecs: Codecs, k: nat)
    requires k <= LastStage
    ensures forall i :: 0 <= i < |Trace(env, codecs, k)| && IsFinish(Trace(env, codecs, k)[i]) ==> i == 2
  {
    if k == LastStage {
      LastSegmentShape(env, codecs);
    }
    if k > 0 {
      FinishOnlyInStageOne(env, codecs, k - 1);
      var early, s := Trace(env, codecs, k - 1), Segment(env, codecs, k);
      var t := early + s;
      forall i | 0 <= i < |t| && IsFinish(t[i])
        ensures i == 2
      {
        if i < |early| {
          assert t[i] == early[i];
        } else {
          assert t[i] == s[i - |early|];
          assert k == 1 && |early| == 1 && s[0].Broadcast?;
        }
      }
    }
  }

  /** The link is announced before the registration is finished: the run
      starts with the uuid request, the link broadcast follows it, and the
      only finishing request comes right after the broadcast. A run whose
      uuid request fails announces nothing. */
  lemma PublishesLinkBeforeFinishing(env: LinkEnv, codecs: Codecs)
    ensures var t := LinkTrace(env, codecs);
            && t[0] == AccountRequest(env.password, GetNewDeviceUuid)
            && (Reached(env) == 0 ==> |t| == 1)
            && (Reached(env) >= 1 ==>
                  && t[1] == Broadcast(LINKING_PUBKEY, Some(DeviceLink(codecs, env.deviceUuid, env.temporaryIdentity.publicKey)))
                  && t[2] == AccountRequest(env.password, FinishRequest(env)))
            && forall i :: 0 <= i < |t| && IsFinish(t[i]) ==> i == 2 && t[1].Broadcast? && t[1].action == LINKING_PUBKEY
  {
    var t := LinkTrace(env, codecs);
    TracePrefix(env, codecs, 0, Reached(env));
    if Reached(env) >= 1 {
      TracePrefix(env, codecs, 1, Reached(env));
    }
    FinishOnlyInStageOne(env, codecs, Reached(env));
  }

  /** End to end with `UpdateContactJob`: after a complete link, a contacts
      sync that lists the own number restores self's profile key from the
      stored preferences to the key the server assigned. */
  lemma SelfSyncRestoresLinkedProfileKey(before: seq<Effect>, env: LinkEnv, codecs: Codecs,
                                         st: Stores, c: ContactStream.DeviceContact, now: int,
                                         attachment: Result<seq<ContactStream.Token>, RetrievalError>)
    requires Reached(env) == LastStage && Base64Inverse(codecs)
    requires c.number == env.registration.number
    ensures var stored := before + LinkTrace(env, codecs);
            && StoredPref(stored, LocalNumber) == Some(StringPref(env.registration.number))
            && StoredPref(stored, ProfileKey).Some? && StoredPref(stored, ProfileKey).value.StringPref?
            && var ctx := RunContext(StoredPref(stored, LocalNumber).value.s, StoredPref(stored, ProfileKey).value.s,
                                     now, attachment, codecs);
               RecipientOf(ApplyContact(st, c, ctx).recipients, c.number).profileKey == Some(env.registration.profileKey)
  {
    StoredPrefsAfterLinking(before, env, codecs, LocalNumber);
    StoredPrefsAfterLinking(before, env, codecs, ProfileKey);
    assert codecs.decode(codecs.encodeBytes(env.registration.profileKey)) == Some(env.registration.profileKey);
  }
}
