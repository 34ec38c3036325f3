/** The contact stream that answers a contacts sync request, and
    `DeviceContactsListInputStream.readList`, which decodes it.

    The wire format is a concatenation: each contact's details, then, when
    the details announce an avatar of some length, that many avatar bytes.
    Nothing else marks where one contact ends. The stream is modelled as a
    sequence of tokens: `Details` stands for one encoded details record and
    `AvatarByte` for one byte of avatar data. `ReadAt` is the library's
    `DeviceContactsInputStream.read()` at a position; its framing is not
    part of this model beyond the rule that it must start on a details
    record. */
module ContactStream {
  import opened Common

  /** `VerifiedMessage.VerifiedState`. */
  datatype VerifiedState = Default | Verified | Unverified

  /** The identity key and the state a `VerifiedMessage` carries. */
  datatype VerifiedMessage = VerifiedMessage(identityKey: Bytes, state: VerifiedState)

  /** The avatar a details record announces: the bytes that follow it. */
  datatype AvatarHeader = AvatarHeader(contentType: string, length: nat)

  /** `DeviceContact`, with the fields the core reads. */
  datatype DeviceContact = DeviceContact(
    number: string,
    name: Option<string>,
    avatar: Option<AvatarHeader>,
    color: Option<string>,
    verified: Option<VerifiedMessage>,
    profileKey: Option<Bytes>)

  datatype Token = Details(contact: DeviceContact) | AvatarByte(b: byte)

  /** `read()` met bytes that do not parse as a details record. */
  datatype StreamError = MalformedDetails

  /** A contact that `read()` returned, and the position of the stream just
      after its details (where its avatar starts). */
  datatype Read = Read(contact: DeviceContact, next: nat)

  /** `DeviceContactsInputStream.read()` at position `pos`: null (`None`) at
      the end of the stream, the contact when a details record starts there,
      an `IOException` otherwise. */
  function ReadAt(s: seq<Token>, pos: nat): (r: Result<Option<Read>, StreamError>)
    requires pos <= |s|
    ensures r == Ok(None) <==> pos == |s|
    ensures r.Ok? && r.value.Some? ==>
              s[pos] == Details(r.value.value.contact) && r.value.value.next == pos + 1
    ensures r.Err? <==> pos < |s| && s[pos].AvatarByte?
  {
    if pos == |s| then Ok(None)
    else match s[pos]
      case Details(c) => Ok(Some(Read(c, pos + 1)))
      case AvatarByte(_) => Err(MalformedDetails)
  }

  /** Where the stream stands once the avatar stream of `c`, opened at
      `pos`, has been read to its end: it yields bytes until its announced
      length is used up or the underlying stream ends. */
  function AvatarEnd(s: seq<Token>, pos: nat, c: DeviceContact): (e: nat)
    requires pos <= |s|
    ensures pos <= e <= |s|
    ensures c.avatar.None? ==> e == pos
    ensures c.avatar.Some? && pos + c.avatar.value.length <= |s| ==> e == pos + c.avatar.value.length
    ensures c.avatar.Some? && pos + c.avatar.value.length > |s| ==> e == |s|
  {
    if c.avatar.None? then pos
    else if pos + c.avatar.value.length <= |s| then pos + c.avatar.value.length
    else |s|
  }

  /** What `readList` returns on the stream from `pos` on: every contact
      `read()` produces, in stream order, each avatar drained before the
      next `read()`, up to the first null; or the first failure of `read()`. */
  function Decode(s: seq<Token>, pos: nat): Result<seq<DeviceContact>, StreamError>
    requires pos <= |s|
    decreases |s| - pos
  {
    match ReadAt(s, pos)
    case Err(e) => Err(e)
    case Ok(None) => Ok([])
    case Ok(Some(r)) => Prepend([r.contact], Decode(s, AvatarEnd(s, r.next, r.contact)))
  }

  /** `xs` followed by the contacts of `r`, or the failure of `r`. */
  function Prepend(xs: seq<DeviceContact>, r: Result<seq<DeviceContact>, StreamError>): (p: Result<seq<DeviceContact>, StreamError>)
    ensures p.Err? <==> r.Err?
    ensures r.Ok? ==> p == Ok(xs + r.value)
  {
    match r
    case Ok(ys) => Ok(xs + ys)
    case Err(e) => Err(e)
  }

  lemma PrependTwice(xs: seq<DeviceContact>, ys: seq<DeviceContact>, r: Result<seq<DeviceContact>, StreamError>)
    ensures Prepend(xs, Prepend(ys, r)) == Prepend(xs + ys, r)
  {
    if r.Ok? {
      assert xs + (ys + r.value) == (xs + ys) + r.value;
    }
  }

  /** `readList`: read contacts until `read()` returns null, draining each
      announced avatar before the next read. */
  method ReadList(s: seq<Token>) returns (r: Result<seq<DeviceContact>, StreamError>)
    ensures r == Decode(s, 0)
  {
    var result: seq<DeviceContact> := [];
    var pos := 0;
    ghost var at := 0;
    var current :- ReadAt(s, pos);
    if current.Some? {
      pos := current.value.next;
    }
    assert Decode(s, 0) == Prepend(result, Decode(s, at)) by {
      var d := Decode(s, 0);
      if d.Ok? { assert [] + d.value == d.value; }
    }
    while current.Some?
      invariant at <= |s| && pos <= |s|
      invariant ReadAt(s, at) == Ok(current)
      invariant current.Some? ==> pos == current.value.next
      invariant Decode(s, 0) == Prepend(result, Decode(s, at))
      decreases |s| - at
    {
      var c := current.value.contact;
      if c.avatar.Some? {
        // The avatar stream is a window on the same input: reading it to
        // its end moves the input to the next details record.
        var left := c.avatar.value.length;
        while left > 0 && pos < |s|
          invariant current.value.next <= pos <= |s|
          invariant pos + left == current.value.next + c.avatar.value.length
        {
          pos := pos + 1;
          left := left - 1;
        }
      }
      assert pos == AvatarEnd(s, current.value.next, c);
      PrependTwice(result, [c], Decode(s, pos));
      result := result + [c];
      at := pos;
      current :- ReadAt(s, pos);
      if current.Some? {
        pos := current.value.next;
      }
    }
    assert result + [] == result;
    r := Ok(result);
  }

  /** A contact as the sending device writes it: its details and the avatar
      bytes that follow them. */
  datatype Entry = Entry(contact: DeviceContact, avatarData: Bytes)

  /** The details announce exactly the avatar bytes that follow. */
  predicate WellFormed(e: Entry) {
    match e.contact.avatar
    case None => e.avatarData == []
    case Some(h) => h.length == |e.avatarData|
  }

  function AvatarTokens(data: Bytes): (t: seq<Token>)
    ensures |t| == |data|
    ensures forall i :: 0 <= i < |t| ==> t[i] == AvatarByte(data[i])
  {
    seq(|data|, i requires 0 <= i < |data| => AvatarByte(data[i]))
  }

  /** The stream carrying `es`, in order. */
  function Encode(es: seq<Entry>): seq<Token>
  {
    if es == [] then [] else [Details(es[0].contact)] + AvatarTokens(es[0].avatarData) + Encode(es[1..])
  }

  function ContactsOf(es: seq<Entry>): (cs: seq<DeviceContact>)
    ensures |cs| == |es|
    ensures forall i :: 0 <= i < |es| ==> cs[i] == es[i].contact
  {
    seq(|es|, i requires 0 <= i < |es| => es[i].contact)
  }

  /** Reading from position `k` of a stream does not depend on what comes
      before that stream. */
  lemma {:induction false} DecodeShift(p: seq<Token>, t: seq<Token>, k: nat)
    requires k <= |t|
    ensures Decode(p + t, |p| + k) == Decode(t, k)
    decreases |t| - k
  {
    var s := p + t;
    if k < |t| {
      assert s[|p| + k] == t[k];
      match t[k]
      case AvatarByte(_) =>
      case Details(c) =>
        var e := AvatarEnd(t, k + 1, c);
        assert AvatarEnd(s, |p| + k + 1, c) == |p| + e;
        DecodeShift(p, t, e);
    }
  }

  /** For well-formed contacts with arbitrary avatars, `readList` returns
      exactly the contacts that were written, in order: draining each
      avatar keeps the reader aligned on the next details record. */
  lemma {:induction false} DecodeEncode(es: seq<Entry>)
    requires forall i :: 0 <= i < |es| ==> WellFormed(es[i])
    ensures Decode(Encode(es), 0) == Ok(ContactsOf(es))
  {
    if es != [] {
      var head := [Details(es[0].contact)] + AvatarTokens(es[0].avatarData);
      var tail := Encode(es[1..]);
      assert Encode(es) == head + tail;
      assert (head + tail)[0] == Details(es[0].contact);
      assert AvatarEnd(head + tail, 1, es[0].contact) == |head|;
      DecodeShift(head, tail, 0);
      DecodeEncode(es[1..]);
      assert ContactsOf(es) == [es[0].contact] + ContactsOf(es[1..]);
    }
  }

  /** A reader that does not drain avatars: it calls `read()` again right
      after the details. It stands for what the comment at the drain loop
      warns against, and is not used by the rest of the model. */
  function DecodeUndrained(s: seq<Token>, pos: nat): Result<seq<DeviceContact>, StreamError>
    requires pos <= |s|
    decreases |s| - pos
  {
    match ReadAt(s, pos)
    case Err(e) => Err(e)
    case Ok(None) => Ok([])
    case Ok(Some(r)) => Prepend([r.contact], DecodeUndrained(s, r.next))
  }

  /** Without the drain, the first contact with a non-empty avatar leaves
      the stream misaligned: the next `read()` starts inside avatar bytes.
      `ReadAt` rejects a read that starts on an avatar byte, so here the whole
      list fails. */
  lemma {:induction false} UndrainedReaderFails(es: seq<Entry>)
    requires es != [] && WellFormed(es[0]) && es[0].avatarData != []
    ensures DecodeUndrained(Encode(es), 0).Err?
  {
    var s := Encode(es);
    assert s == [Details(es[0].contact)] + AvatarTokens(es[0].avatarData) + Encode(es[1..]);
    assert s[1] == AvatarByte(es[0].avatarData[0]);
  }
}
