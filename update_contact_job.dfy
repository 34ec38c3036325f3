/** `UpdateContactJob`: fetches the contact attachment that answers a
    contacts sync request, decodes it, and reconciles each contact into the
    recipient and identity databases, asking for each contact's profile. */
module UpdateContactJob {
  import opened Common
  import opened LocalState
  import opened ContactStream

  const KEY := "UpdateContactJob"

  const POINTER_ID := "pointer_id"
  const POINTER_CONTENT_TYPE := "pointer_content_type"
  const POINTER_KEY := "pointer_key"
  const POINTER_SIZE := "pointer_size"
  const POINTER_DIGEST := "pointer_digest"

  /** `SignalServiceAttachmentPointer`, in its constructor's argument order. */
  datatype AttachmentPointer = AttachmentPointer(
    id: Int64,
    contentType: string,
    key: Bytes,
    size: Option<Int32>,
    preview: Option<Bytes>,
    width: int,
    height: int,
    digest: Option<Bytes>,
    fileName: Option<string>,
    voiceNote: bool,
    caption: Option<string>)

  /** The job: its parameters and the pointer it fetches (null when the
      factory could not rebuild it). */
  datatype UpdateContactJob = UpdateContactJob(parameters: JobParameters, pointer: Option<AttachmentPointer>)

  /** The job manager's `Data`: typed key/value maps. */
  datatype Data = Data(longs: map<string, Int64>, strings: map<string, string>, ints: map<string, Int32>)

  /** The public constructor: a network constraint and ten attempts. */
  function NewUpdateContactJob(p: AttachmentPointer): (job: UpdateContactJob)
    ensures job.parameters.constraints == {Network}
    ensures job.parameters.maxAttempts == Some(10)
    ensures job.pointer == Some(p)
  {
    UpdateContactJob(JobParameters({Network}, Some(10)), Some(p))
  }

  /** `serialize`: the pointer's id, content type, key, size and digest, the
      byte arrays in Base64. A job the factory rebuilt with a null pointer
      throws `NullPointerException` at the first getter; `getSize().get()` and
      `getDigest().get()` throw `IllegalStateException` on an absent value. */
  function Serialize(job: UpdateContactJob, codecs: Codecs): (r: Result<Data, Exception>)
    ensures job.pointer.None? ==> r == Err(NullPointerException)
    ensures (job.pointer.Some? && (job.pointer.value.size.None? || job.pointer.value.digest.None?))
              ==> r == Err(IllegalStateException)
    ensures r.Ok? <==> job.pointer.Some? && job.pointer.value.size.Some? && job.pointer.value.digest.Some?
    ensures r.Ok? ==>
              var d, p := r.value, job.pointer.value;
              && d.longs.Keys == {POINTER_ID} && d.ints.Keys == {POINTER_SIZE}
              && d.strings.Keys == {POINTER_CONTENT_TYPE, POINTER_KEY, POINTER_DIGEST}
              && d.longs[POINTER_ID] == p.id
              && d.ints[POINTER_SIZE] == p.size.value
              && d.strings[POINTER_CONTENT_TYPE] == p.contentType
              && d.strings[POINTER_KEY] == codecs.encodeBytes(p.key)
              && d.strings[POINTER_DIGEST] == codecs.encodeBytes(p.digest.value)
  {
    match job.pointer
    case None => Err(NullPointerException)
    case Some(p) =>
      if p.size.None? || p.digest.None? then Err(IllegalStateException)
      else
        Ok(Data(map[POINTER_ID := p.id],
                map[POINTER_CONTENT_TYPE := p.contentType,
                    POINTER_KEY := codecs.encodeBytes(p.key),
                    POINTER_DIGEST := codecs.encodeBytes(p.digest.value)],
                map[POINTER_SIZE := p.size.value]))
  }

  /** `Factory.create`: rebuilds the pointer from `data`, in the order the
      source reads it. A Base64 decoding failure is an `IOException`, caught:
      the job is built with a null pointer. A missing key is an unchecked
      exception of the `Data` getter and escapes. */
  function Create(parameters: JobParameters, data: Data, codecs: Codecs): (r: Result<UpdateContactJob, Exception>)
    ensures r.Ok? ==> r.value.parameters == parameters
    ensures r.Err? ==> r.error == IllegalStateException
    ensures (POINTER_ID !in data.longs || POINTER_CONTENT_TYPE !in data.strings || POINTER_KEY !in data.strings)
              ==> r == Err(IllegalStateException)
    ensures (&& POINTER_ID in data.longs && POINTER_CONTENT_TYPE in data.strings && POINTER_KEY in data.strings
             && codecs.decode(data.strings[POINTER_KEY]).None?)
              ==> r == Ok(UpdateContactJob(parameters, None))
    ensures (&& POINTER_ID in data.longs && POINTER_CONTENT_TYPE in data.strings && POINTER_KEY in data.strings
             && codecs.decode(data.strings[POINTER_KEY]).Some?
             && (POINTER_SIZE !in data.ints || POINTER_DIGEST !in data.strings))
              ==> r == Err(IllegalStateException)
    ensures (&& POINTER_ID in data.longs && POINTER_CONTENT_TYPE in data.strings && POINTER_KEY in data.strings
             && POINTER_SIZE in data.ints && POINTER_DIGEST in data.strings
             && codecs.decode(data.strings[POINTER_KEY]).Some?
             && codecs.decode(data.strings[POINTER_DIGEST]).None?)
              ==> r == Ok(UpdateContactJob(parameters, None))
    ensures (&& POINTER_ID in data.longs && POINTER_CONTENT_TYPE in data.strings && POINTER_KEY in data.strings
             && POINTER_SIZE in data.ints && POINTER_DIGEST in data.strings
             && codecs.decode(data.strings[POINTER_KEY]).Some?
             && codecs.decode(data.strings[POINTER_DIGEST]).Some?)
              ==> r == Ok(UpdateContactJob(parameters, Some(AttachmentPointer(
                        data.longs[POINTER_ID], data.strings[POINTER_CONTENT_TYPE],
                        codecs.decode(data.strings[POINTER_KEY]).value, Some(data.ints[POINTER_SIZE]),
                        None, 0, 0, Some(codecs.decode(data.strings[POINTER_DIGEST]).value),
                        None, false, None))))
  {
    if POINTER_ID !in data.longs || POINTER_CONTENT_TYPE !in data.strings || POINTER_KEY !in data.strings then
      Err(IllegalStateException)
    else match codecs.decode(data.strings[POINTER_KEY])
      case None => Ok(UpdateContactJob(parameters, None))
      case Some(key) =>
        if POINTER_SIZE !in data.ints || POINTER_DIGEST !in data.strings then Err(IllegalStateException)
        else match codecs.decode(data.strings[POINTER_DIGEST])
          case None => Ok(UpdateContactJob(parameters, None))
          case Some(digest) =>
            Ok(UpdateContactJob(parameters, Some(AttachmentPointer(
              data.longs[POINTER_ID], data.strings[POINTER_CONTENT_TYPE], key,
              Some(data.ints[POINTER_SIZE]), None, 0, 0, Some(digest), None, false, None))))
  }

  /** The job survives being persisted: what `serialize` writes, `create`
      reads back into a job with the same parameters and the same id,
      content type, key, size and digest; the fields `serialize` does not
      write come back at their defaults. */
  lemma CreateAfterSerialize(job: UpdateContactJob, parameters: JobParameters, codecs: Codecs)
    requires Base64Inverse(codecs)
    requires job.pointer.Some? && job.pointer.value.size.Some? && job.pointer.value.digest.Some?
    ensures Serialize(job, codecs).Ok?
    ensures var r := Create(parameters, Serialize(job, codecs).value, codecs);
            && r.Ok? && r.value.parameters == parameters && r.value.pointer.Some?
            && var p, q := job.pointer.value, r.value.pointer.value;
            && q.id == p.id && q.contentType == p.contentType && q.key == p.key
            && q.size == p.size && q.digest == p.digest
            && q == p.(preview := None, width := 0, height := 0, fileName := None, voiceNote := false, caption := None)
  {
    var p := job.pointer.value;
    assert codecs.decode(codecs.encodeBytes(p.key)) == Some(p.key);
    assert codecs.decode(codecs.encodeBytes(p.digest.value)) == Some(p.digest.value);
  }

  /** `onShouldRetry`: only an `IOException` (any subclass) is retried. */
  function ShouldRetry(e: Exception): (r: bool)
    ensures r <==> e.IOException?
  {
    match e
    case IOException(_) => true
    case _ => false
  }

  /** `getFactoryKey`: the key under which the factory that restores the
      job is registered. */
  function FactoryKey(job: UpdateContactJob): (key: string)
    ensures key == KEY && key == "UpdateContactJob"
  {
    KEY
  }

  /** `onCanceled` has an empty body: it changes no state. */
  method OnCanceled(job: UpdateContactJob, dev: Device)
    ensures unchanged(dev)
  {
  }

  /** The status `onRun` hands to `saveIdentity` for a verified state, as
      written: the third branch tests `UNVERIFIED` again, so `VERIFIED`
      leaves the status null. */
  function StatusFor(state: VerifiedState): (r: Option<VerifiedStatus>)
    ensures state == VerifiedState.Default ==> r == Some(VerifiedStatus.Default)
    ensures state == VerifiedState.Unverified ==> r == Some(VerifiedStatus.Unverified)
    ensures state == VerifiedState.Verified ==> r == None
  {
    if state == VerifiedState.Default then Some(VerifiedStatus.Default)
    else if state == VerifiedState.Unverified then Some(VerifiedStatus.Unverified)
    else if state == VerifiedState.Unverified then Some(VerifiedStatus.Verified)
    else None
  }

  /** Two distinct verified states are not told apart: `VERIFIED` arrives as
      no status at all, so the verification the other device recorded is
      lost. */
  lemma StatusForLosesVerified()
    ensures StatusFor(VerifiedState.Verified) == None
    ensures forall s :: StatusFor(s) != Some(VerifiedStatus.Verified)
  {
  }

  /** The mapping the branches evidently intend: each state to the status of
      the same name. */
  function IntendedStatusFor(state: VerifiedState): (r: VerifiedStatus)
  {
    match state
    case Default => VerifiedStatus.Default
    case Verified => VerifiedStatus.Verified
    case Unverified => VerifiedStatus.Unverified
  }

  /** The intended mapping keeps the three states distinct, and agrees with
      the written one wherever the written one gives a status. */
  lemma {:induction false} IntendedStatusForIsFaithful(s: VerifiedState, t: VerifiedState)
    ensures IntendedStatusFor(s) == IntendedStatusFor(t) ==> s == t
    ensures StatusFor(s).Some? ==> StatusFor(s).value == IntendedStatusFor(s)
    ensures StatusFor(s).None? <==> s == VerifiedState.Verified
  {
    match s
    case Default =>
    case Verified =>
    case Unverified =>
  }

  /** What `retrieveAttachment` may throw that `onRun` catches: an
      `IOException` or an `InvalidMessageException`. Anything else would
      escape `onRun`; the retrieval is taken to throw nothing else. */
  type RetrievalError = e: Exception | e.IOException? || e.InvalidMessageException? witness InvalidMessageException

  /** What one run needs from outside: the local number and the stored
      profile key (read from preferences), the clock, the outcome of
      `retrieveAttachment`, and the library codecs. */
  datatype RunContext = RunContext(
    localNumber: string,
    storedProfileKey: string,
    now: int,
    attachment: Result<seq<Token>, RetrievalError>,
    codecs: Codecs)

  /** The row `saveIdentity` writes for a contact's verified message, with
      the corrected status mapping: the status names the state the other
      device recorded. `StatusFor` is the mapping as written, which saves no
      status for `VERIFIED`; the run here saves `VERIFIED` instead. */
  function VerifiedIdentity(v: VerifiedMessage, now: int): (r: IdentityRecord)
    ensures r.identityKey == v.identityKey && r.status == Some(IntendedStatusFor(v.state))
    ensures v.state == VerifiedState.Verified ==> r.status == Some(VerifiedStatus.Verified)
    ensures r.firstUse && r.nonBlockingApproval && r.timestamp == now
  {
    IdentityRecord(v.identityKey, Some(IntendedStatusFor(v.state)), true, now, true)
  }

  /** The guarded writes of a contact other than self to its recipient row:
      profile key, colour (skipped when it cannot be parsed) and name, each
      only when present. */
  function ApplyRecipientFields(m: map<string, Recipient>, c: DeviceContact, codecs: Codecs): map<string, Recipient>
  {
    var a := c.number;
    var m1 := if c.profileKey.Some? then WithProfileKey(m, a, c.profileKey.value) else m;
    var m2 := if c.color.Some? && codecs.colorFromSerialized(c.color.value).Some?
              then WithColor(m1, a, codecs.colorFromSerialized(c.color.value).value) else m1;
    if c.name.Some? then WithName(m2, a, c.name.value) else m2
  }

  /** The effect of one decoded contact on the databases. The contact for
      the local number reloads self's profile key from preferences (a key
      that does not decode is skipped); any other contact gets the guarded
      writes, and its identity is saved when it carries a verified message. */
  function ApplyContact(st: Stores, c: DeviceContact, ctx: RunContext): Stores
  {
    if c.number == ctx.localNumber then
      match ctx.codecs.decode(ctx.storedProfileKey)
      case None => st
      case Some(k) => st.(recipients := WithProfileKey(st.recipients, ctx.localNumber, k))
    else
      Stores(ApplyRecipientFields(st.recipients, c, ctx.codecs),
             if c.verified.Some? then st.identities[c.number := VerifiedIdentity(c.verified.value, ctx.now)]
             else st.identities)
  }

  /** The databases after reconciling `cs` in order. */
  function ApplyAll(st: Stores, cs: seq<DeviceContact>, ctx: RunContext): Stores
    decreases |cs|
  {
    if cs == [] then st else ApplyAll(ApplyContact(st, cs[0], ctx), cs[1..], ctx)
  }

  /** The jobs a reconciliation enqueues: one `RetrieveProfileJob` per
      contact, in list order (for self, the local number is the contact's). */
  function ProfileJobs(cs: seq<DeviceContact>): (effects: seq<Effect>)
    ensures |effects| == |cs|
    ensures forall i :: 0 <= i < |cs| ==> effects[i] == Enqueue(RetrieveProfile(cs[i].number))
  {
    seq(|cs|, i requires 0 <= i < |cs| => Enqueue(RetrieveProfile(cs[i].number)))
  }

  /** A contact for the local number changes self's profile key and nothing
      else: no other recipient row and no identity. */
  lemma SelfContactTouchesOnlySelf(st: Stores, c: DeviceContact, ctx: RunContext)
    requires c.number == ctx.localNumber
    ensures var st' := ApplyContact(st, c, ctx);
            && st'.identities == st.identities
            && (forall a :: a != ctx.localNumber ==> (a in st'.recipients <==> a in st.recipients))
            && (forall a :: a != ctx.localNumber && a in st.recipients ==> st'.recipients[a] == st.recipients[a])
            && RecipientOf(st'.recipients, ctx.localNumber) ==
                 match ctx.codecs.decode(ctx.storedProfileKey)
                 case None => RecipientOf(st.recipients, ctx.localNumber)
                 case Some(k) => RecipientOf(st.recipients, ctx.localNumber).(profileKey := Some(k))
  {
  }

  /** Any other contact writes only its own recipient row and identity. */
  lemma OtherContactTouchesOnlyItself(st: Stores, c: DeviceContact, ctx: RunContext, a: string)
    requires c.number != ctx.localNumber && a != c.number
    ensures var st' := ApplyContact(st, c, ctx);
            && (a in st'.recipients <==> a in st.recipients)
            && (a in st.recipients ==> st'.recipients[a] == st.recipients[a])
            && (a in st'.identities <==> a in st.identities)
            && (a in st.identities ==> st'.identities[a] == st.identities[a])
  {
  }

  /** Each field of the contact's row is written exactly when the contact
      carries it (a colour also has to parse); an absent field keeps its
      value. The identity row is written exactly when a verified message is
      present, with the mapped status. */
  lemma GuardedWrites(st: Stores, c: DeviceContact, ctx: RunContext)
    requires c.number != ctx.localNumber
    ensures var st' := ApplyContact(st, c, ctx);
            var before, after := RecipientOf(st.recipients, c.number), RecipientOf(st'.recipients, c.number);
            var color := if c.color.Some? then ctx.codecs.colorFromSerialized(c.color.value) else None;
            && after.profileKey == (if c.profileKey.Some? then c.profileKey else before.profileKey)
            && after.color == (if color.Some? then color else before.color)
            && after.name == (if c.name.Some? then c.name else before.name)
            && (c.verified.Some? ==>
                  c.number in st'.identities && st'.identities[c.number] == VerifiedIdentity(c.verified.value, ctx.now))
            && (c.verified.None? ==> st'.identities == st.identities)
            && (c.profileKey.None? && color.None? && c.name.None? ==> st'.recipients == st.recipients)
  {
  }

  /** Reconciling the same contact twice leaves the databases as
      reconciling it once. */
  lemma ApplyContactIdempotent(st: Stores, c: DeviceContact, ctx: RunContext)
    ensures ApplyContact(ApplyContact(st, c, ctx), c, ctx) == ApplyContact(st, c, ctx)
  {
    var once := ApplyContact(st, c, ctx);
    if c.number != ctx.localNumber {
      var m := st.recipients;
      var a := c.number;
      var m' := once.recipients;
      var twice := ApplyRecipientFields(m', c, ctx.codecs);
      assert twice.Keys == m'.Keys;
      assert forall b :: b in m' ==> twice[b] == m'[b];
    }
  }

  /** `onRun` for one decoded contact. */
  method ReconcileContact(dev: Device, c: DeviceContact, ctx: RunContext)
    modifies dev
    ensures dev.State() == ApplyContact(old(dev.State()), c, ctx)
    ensures dev.log == old(dev.log) + [Enqueue(RetrieveProfile(c.number))]
  {
    if c.number == ctx.localNumber {
      var key := ctx.codecs.decode(ctx.storedProfileKey);
      if key.Some? {
        dev.SetProfileKey(ctx.localNumber, key.value);
      }
      dev.Emit(Enqueue(RetrieveProfile(ctx.localNumber)));
    } else {
      var a := c.number;
      if c.profileKey.Some? {
        dev.SetProfileKey(a, c.profileKey.value);
      }
      if c.color.Some? {
        var color := ctx.codecs.colorFromSerialized(c.color.value);
        if color.Some? {
          dev.SetColor(a, color.value);
        }
      }
      if c.name.Some? {
        dev.SetName(a, c.name.value);
      }
      if c.verified.Some? {
        dev.SaveIdentity(a, VerifiedIdentity(c.verified.value, ctx.now));
      }
      dev.Emit(Enqueue(RetrieveProfile(a)));
    }
  }

  /** `onRun`. A failed retrieval or a stream that does not decode ends the
      run normally with nothing written and nothing enqueued; otherwise
      every decoded contact is reconciled in order and gets one profile job. */
  method OnRun(dev: Device, ctx: RunContext)
    modifies dev
    ensures ctx.attachment.Err? ==> dev.State() == old(dev.State()) && dev.log == old(dev.log)
    ensures ctx.attachment.Ok? && Decode(ctx.attachment.value, 0).Err? ==>
              dev.State() == old(dev.State()) && dev.log == old(dev.log)
    ensures ctx.attachment.Ok? && Decode(ctx.attachment.value, 0).Ok? ==>
              var contacts := Decode(ctx.attachment.value, 0).value;
              && dev.State() == ApplyAll(old(dev.State()), contacts, ctx)
              && dev.log == old(dev.log) + ProfileJobs(contacts)
  {
    if ctx.attachment.Err? {
      return;
    }
    var read := ReadList(ctx.attachment.value);
    if read.Err? {
      return;
    }
    var contacts := read.value;
    for i := 0 to |contacts|
      invariant ApplyAll(old(dev.State()), contacts, ctx) == ApplyAll(dev.State(), contacts[i..], ctx)
      invariant dev.log == old(dev.log) + ProfileJobs(contacts[..i])
    {
      assert contacts[i..][1..] == contacts[i + 1..];
      ReconcileContact(dev, contacts[i], ctx);
      assert contacts[..i + 1] == contacts[..i] + [contacts[i]];
      assert ProfileJobs(contacts[..i + 1]) == ProfileJobs(contacts[..i]) + [Enqueue(RetrieveProfile(contacts[i].number))];
    }
    assert contacts[..|contacts|] == contacts;
  }

  /** End to end: for a stream carrying well-formed contacts with arbitrary
      avatars, a run enqueues exactly one profile job per contact written,
      in the order written. */
  lemma {:induction false} OneProfileJobPerWrittenContact(es: seq<Entry>)
    requires forall i :: 0 <= i < |es| ==> WellFormed(es[i])
    ensures Decode(Encode(es), 0).Ok?
    ensures var jobs := ProfileJobs(Decode(Encode(es), 0).value);
            && |jobs| == |es|
            && forall i :: 0 <= i < |es| ==> jobs[i] == Enqueue(RetrieveProfile(es[i].contact.number))
  {
    DecodeEncode(es);
  }
}
