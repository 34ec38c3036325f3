/** The process-wide state the jobs and the linking service act on: the
    recipient and identity databases, and an ordered log of every outward
    effect (preference writes, account-manager requests, local broadcasts,
    jobs handed to the job manager, messages handed to the transport).
    Preferences are not a separate store: a preference holds the value of its
    last write in the log. */
module LocalState {
  import opened Common

  /** `IdentityKeyPair`: the serialized public key and the private key. */
  datatype IdentityKeyPair = IdentityKeyPair(publicKey: Bytes, privateKey: Bytes)

  datatype PreKeyRecord = PreKeyRecord(id: nat, publicKey: Bytes)
  datatype SignedPreKeyRecord = SignedPreKeyRecord(id: nat, publicKey: Bytes, signature: Bytes)

  /** The keys of `TextSecurePreferences` the linking service writes
      (`IdentityKeys` stands for the pair `IdentityKeyUtil.setIdentityKeys`
      stores). */
  datatype PrefKey =
    | DeviceId | LocalNumber | IdentityKeys
    | Verifying | PushRegistered | PushServerPassword | SignedPreKeyRegistered
    | PromptedPushRegistration | WebsocketRegistered
    | FcmToken | FcmDisabled | MultiDevice | LocalRegistrationId | UnauthorizedReceived
    | ProfileKey | UnidentifiedAccessCertificate | SignalingKey

  datatype PrefValue =
    | BoolPref(b: bool)
    | IntPref(i: int)
    | StringPref(s: string)
    | BytesPref(bytes: Bytes)
    | KeyPairPref(pair: IdentityKeyPair)

  /** Requests made through a `SignalServiceAccountManager`. */
  datatype AccountCall =
    | GetNewDeviceUuid
    | FinishNewDeviceRegistration(identity: IdentityKeyPair, signalingKey: string,
                                  supportsSms: bool, fetchesMessages: bool,
                                  registrationId: int, deviceName: string)
    | SetGcmId(token: Option<string>)
    | SetPreKeys(identityKey: Bytes, signedPreKey: SignedPreKeyRecord, oneTimePreKeys: seq<PreKeyRecord>)
    | GetSenderCertificate

  /** A job handed to the job manager. */
  datatype Job =
    | RetrieveProfile(address: string)
    | SyncRequest(requestType: RequestType)

  /** One outward effect, in the order it happened. `AccountRequest` carries
      the password the account manager was built with. */
  datatype Effect =
    | SetPref(key: PrefKey, value: PrefValue)
    | AccountRequest(password: string, call: AccountCall)
    | Broadcast(action: string, extra: Option<string>)
    | Enqueue(job: Job)
    | Send(message: SyncMessage, target: Option<string>)

  /** A row of the recipient database, as far as the core writes it. */
  datatype Recipient = Recipient(profileKey: Option<Bytes>, color: Option<MaterialColor>, name: Option<string>)

  /** What `Recipient.from` yields for an address with no row yet. */
  const NewRecipient := Recipient(None, None, None)

  /** `IdentityDatabase.VerifiedStatus`. */
  datatype VerifiedStatus = Default | Verified | Unverified

  /** The arguments of `IdentityDatabase.saveIdentity` after the address.
      The status is a Java reference and may be null. */
  datatype IdentityRecord = IdentityRecord(identityKey: Bytes, status: Option<VerifiedStatus>,
                                           firstUse: bool, timestamp: int, nonBlockingApproval: bool)

  /** The two databases as one value. */
  datatype Stores = Stores(recipients: map<string, Recipient>, identities: map<string, IdentityRecord>)

  function RecipientOf(m: map<string, Recipient>, a: string): (r: Recipient)
    ensures a !in m ==> r == NewRecipient
  {
    if a in m then m[a] else NewRecipient
  }

  /** `Recipient.setProfileKey` and its siblings: one field of one row. */
  function WithProfileKey(m: map<string, Recipient>, a: string, k: Bytes): (m': map<string, Recipient>)
    ensures m'.Keys == m.Keys + {a}
    ensures m'[a] == RecipientOf(m, a).(profileKey := Some(k))
    ensures forall b :: b != a && b in m ==> m'[b] == m[b]
  {
    m[a := RecipientOf(m, a).(profileKey := Some(k))]
  }

  function WithColor(m: map<string, Recipient>, a: string, c: MaterialColor): (m': map<string, Recipient>)
    ensures m'.Keys == m.Keys + {a}
    ensures m'[a] == RecipientOf(m, a).(color := Some(c))
    ensures forall b :: b != a && b in m ==> m'[b] == m[b]
  {
    m[a := RecipientOf(m, a).(color := Some(c))]
  }

  function WithName(m: map<string, Recipient>, a: string, n: string): (m': map<string, Recipient>)
    ensures m'.Keys == m.Keys + {a}
    ensures m'[a] == RecipientOf(m, a).(name := Some(n))
    ensures forall b :: b != a && b in m ==> m'[b] == m[b]
  {
    m[a := RecipientOf(m, a).(name := Some(n))]
  }

  /** The value a preference holds after the effects of `log`: that of its
      last write, or `None` when `log` never writes it. */
  function StoredPref(log: seq<Effect>, key: PrefKey): Option<PrefValue>
    decreases |log|
  {
    if log == [] then None
    else if log[|log| - 1].SetPref? && log[|log| - 1].key == key then Some(log[|log| - 1].value)
    else StoredPref(log[..|log| - 1], key)
  }

  /** Every write of `key` in `log` writes `v`. */
  ghost predicate WritesOnly(log: seq<Effect>, key: PrefKey, v: PrefValue) {
    forall e :: e in log && e.SetPref? && e.key == key ==> e.value == v
  }

  /** `log` never writes `key`. */
  ghost predicate Untouched(log: seq<Effect>, key: PrefKey) {
    forall e :: e in log ==> !(e.SetPref? && e.key == key)
  }

  /** Effects appended after a write of `key` that write `key` only with the
      same value leave that value stored, whatever came before. */
  lemma {:induction false} StoredAfterWrites(before: seq<Effect>, log: seq<Effect>, key: PrefKey, v: PrefValue)
    requires SetPref(key, v) in log
    requires WritesOnly(log, key, v)
    ensures StoredPref(before + log, key) == Some(v)
    decreases |log|
  {
    var all := before + log;
    var last := log[|log| - 1];
    assert all[|all| - 1] == last;
    if last.SetPref? && last.key == key {
    } else {
      var init := log[..|log| - 1];
      assert log == init + [last];
      assert all[..|all| - 1] == before + init;
      StoredAfterWrites(before, init, key, v);
    }
  }

  /** Effects that never write `key` leave its stored value as it was. */
  lemma {:induction false} StoredPastUntouched(before: seq<Effect>, log: seq<Effect>, key: PrefKey)
    requires Untouched(log, key)
    ensures StoredPref(before + log, key) == StoredPref(before, key)
    decreases |log|
  {
    if log != [] {
      var all := before + log;
      var last := log[|log| - 1];
      assert all[|all| - 1] == last;
      var init := log[..|log| - 1];
      assert log == init + [last];
      assert all[..|all| - 1] == before + init;
      StoredPastUntouched(before, init, key);
    } else {
      assert before + log == before;
    }
  }

  /** The jobs handed to the job manager by the effects of `log`, in order. */
  function EnqueuedJobs(log: seq<Effect>): (jobs: seq<Job>)
    ensures |jobs| <= |log|
    ensures (forall e :: e in log ==> !e.Enqueue?) ==> jobs == []
  {
    if log == [] then []
    else (if log[0].Enqueue? then [log[0].job] else []) + EnqueuedJobs(log[1..])
  }

  lemma {:induction false} EnqueuedJobsAppend(a: seq<Effect>, b: seq<Effect>)
    ensures EnqueuedJobs(a + b) == EnqueuedJobs(a) + EnqueuedJobs(b)
    decreases |a|
  {
    if a == [] {
      assert a + b == b;
    } else {
      assert (a + b)[1..] == a[1..] + b;
      EnqueuedJobsAppend(a[1..], b);
    }
  }

  /** The process-wide state of the device. */
  class Device {
    var recipients: map<string, Recipient>
    var identities: map<string, IdentityRecord>
    var log: seq<Effect>

    constructor (recipients0: map<string, Recipient>, identities0: map<string, IdentityRecord>)
      ensures recipients == recipients0 && identities == identities0 && log == []
    {
      recipients := recipients0;
      identities := identities0;
      log := [];
    }

    function State(): Stores
      reads this
    {
      Stores(recipients, identities)
    }

    /** Performs one outward effect. */
    method Emit(e: Effect)
      modifies this`log
      ensures log == old(log) + [e]
    {
      log := log + [e];
    }

    method SetProfileKey(a: string, k: Bytes)
      modifies this`recipients
      ensures recipients == WithProfileKey(old(recipients), a, k)
    {
      recipients := WithProfileKey(recipients, a, k);
    }

    method SetColor(a: string, c: MaterialColor)
      modifies this`recipients
      ensures recipients == WithColor(old(recipients), a, c)
    {
      recipients := WithColor(recipients, a, c);
    }

    method SetName(a: string, n: string)
      modifies this`recipients
      ensures recipients == WithName(old(recipients), a, n)
    {
      recipients := WithName(recipients, a, n);
    }

    /** `IdentityDatabase.saveIdentity`: the row for `a` becomes `r`. */
    method SaveIdentity(a: string, r: IdentityRecord)
      modifies this`identities
      ensures identities == old(identities)[a := r]
    {
      identities := identities[a := r];
    }
  }
}
