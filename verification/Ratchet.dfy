/**
  The double ratchet of src/crypto/ratchet.ts: what one party's state becomes
  under encrypt and decrypt, first as functions on values, then as the class
  that updates its fields in place.
 */
module Ratchet {
  import opened Basics
  import opened Symbolic
  import FiniteSets

  const MAX_SKIP: nat := 1000

  /** A header as it is decoded from the wire: its numbers are any integers. */
  datatype Header = Header(dhPublicKey: PublicKey, previousChainLength: int, messageNumber: int)

  /** encodeHeader: both numbers as 32 bit words, so modulo 2^32. */
  datatype EncodedHeader = EncodedHeader(dhPublicKey: PublicKey, previousChainLength: nat, messageNumber: nat)

  function EncodeHeader(h: Header): EncodedHeader {
    EncodedHeader(h.dhPublicKey, h.previousChainLength % TWO_TO_THE_32, h.messageNumber % TWO_TO_THE_32)
  }

  /** buildNonce: a 64 bit counter. */
  function Nonce(number: int): nat {
    number % TWO_TO_THE_64
  }

  /** The AEAD associated data: the encoded header followed by the caller's data. */
  datatype Aad = Aad(header: EncodedHeader, associatedData: Bytes)

  datatype Packet = Packet(header: Header, ciphertext: Cipher<Aad, Bytes>, associatedData: Bytes)

  type CacheKey = (PublicKey, nat)

  datatype State = State(
    rootKey: Key,
    dhSelf: nat,
    dhRemote: Option<PublicKey>,
    sendingChainKey: Option<Key>,
    receivingChainKey: Option<Key>,
    sendMessageNumber: nat,
    receiveMessageNumber: nat,
    previousSendingChainLength: nat,
    skippedMessageKeys: map<CacheKey, Key>)

  datatype Error = TooManySkipped | NoReceivingChain | NoSendingChain | BadPublicKey | NotAuthentic

  // ----- Key schedule -----

  function MessageKey(chainKey: Key): Key { Mac(chainKey, 1) }

  function NextChainKey(chainKey: Key): Key { Mac(chainKey, 2) }

  function ChainAt(chainKey: Key, n: nat): Key {
    if n == 0 then chainKey else NextChainKey(ChainAt(chainKey, n - 1))
  }

  function KeyAt(chainKey: Key, n: nat): Key { MessageKey(ChainAt(chainKey, n)) }

  // ----- One party, as functions on values -----

  function InitAsInitiator(rootKey: Key, remote: PublicKey, newName: nat): Result<State, Error> {
    match Dh(newName, remote)
    case None => Err(BadPublicKey)
    case Some(dh) =>
      Ok(State(HkdfHead(rootKey, dh), newName, Some(remote), Some(HkdfTail(rootKey, dh)), None, 0, 0, 0, map[]))
  }

  function InitAsResponder(rootKey: Key, own: nat): State {
    State(rootKey, own, None, None, None, 0, 0, 0, map[])
  }

  /** The message keys of numbers from..until-1 of the chain whose key at number
      `from` is `chainKey`. */
  function SkippedRange(remote: PublicKey, chainKey: Key, from: nat, until: nat): map<CacheKey, Key>
    decreases until
  {
    if until <= from then map[]
    else SkippedRange(remote, chainKey, from, until - 1)[(remote, until - 1) := KeyAt(chainKey, until - 1 - from)]
  }

  /** skipMessageKeysUntil, in closed form: every key up to `until` is cached and
      the chain stands at `until`; a gap above MAX_SKIP is refused. */
  function SkipUntil(s: State, until: int): Result<State, Error> {
    if s.receivingChainKey.None? || s.dhRemote.None? then Ok(s)
    else if until - s.receiveMessageNumber > MAX_SKIP then Err(TooManySkipped)
    else if until <= s.receiveMessageNumber then Ok(s)
    else Ok(s.(receivingChainKey := Some(ChainAt(s.receivingChainKey.value, until - s.receiveMessageNumber)),
               receiveMessageNumber := until,
               skippedMessageKeys := s.skippedMessageKeys +
                 SkippedRange(s.dhRemote.value, s.receivingChainKey.value, s.receiveMessageNumber, until)))
  }

  function DhRatchetStep(s: State, remote: PublicKey, newName: nat): Result<State, Error> {
    match (Dh(s.dhSelf, remote), Dh(newName, remote))
    case (Some(receive), Some(send)) =>
      var middle := HkdfHead(s.rootKey, receive);
      Ok(State(HkdfHead(middle, send), newName, Some(remote),
               Some(HkdfTail(middle, send)), Some(HkdfTail(s.rootKey, receive)),
               0, 0, s.sendMessageNumber, s.skippedMessageKeys))
    case _ => Err(BadPublicKey)
  }

  function Encrypt(s: State, plaintext: Bytes, associatedData: Bytes): Result<(State, Packet), Error> {
    match s.sendingChainKey
    case None => Err(NoSendingChain)
    case Some(chain) =>
      var header := Header(Point(s.dhSelf), s.previousSendingChainLength, s.sendMessageNumber);
      var aad := Aad(EncodeHeader(header), associatedData);
      var sealed := Sealed(MessageKey(chain), Nonce(s.sendMessageNumber), aad, plaintext);
      Ok((s.(sendingChainKey := Some(NextChainKey(chain)), sendMessageNumber := s.sendMessageNumber + 1),
          Packet(header, sealed, associatedData)))
  }

  /** The DH ratchet part of decrypt: nothing when the header names the current
      remote key, else close the old chain and step to the new one. */
  function CatchUp(s: State, header: Header, newName: nat): Result<State, Error> {
    if s.dhRemote == Some(header.dhPublicKey) then Ok(s)
    else
      match SkipUntil(s, header.previousChainLength)
      case Err(e) => Err(e)
      case Ok(closed) => DhRatchetStep(closed, header.dhPublicKey, newName)
  }

  /** Where skipping to number `until` leaves a chain that stands at `from`. */
  function Max(from: nat, until: int): nat { if from >= until then from else until }

  /** Is the key of the message this header names cached? */
  predicate IsCached(s: State, h: Header) {
    h.messageNumber >= 0 && (h.dhPublicKey, h.messageNumber) in s.skippedMessageKeys
  }

  /** The message key decrypt tries for a header, with the state it commits if
      that key opens the ciphertext. */
  function KeyFor(s: State, header: Header, newName: nat): Result<(State, Key), Error> {
    if IsCached(s, header) then
      var cacheKey := (header.dhPublicKey, header.messageNumber);
      Ok((s.(skippedMessageKeys := s.skippedMessageKeys - {cacheKey}), s.skippedMessageKeys[cacheKey]))
    else
      match CatchUp(s, header, newName)
      case Err(e) => Err(e)
      case Ok(current) =>
        match SkipUntil(current, header.messageNumber)
        case Err(e) => Err(e)
        case Ok(ready) =>
          match ready.receivingChainKey
          case None => Err(NoReceivingChain)
          case Some(chain) =>
            Ok((ready.(receivingChainKey := Some(NextChainKey(chain)),
                       receiveMessageNumber := ready.receiveMessageNumber + 1), MessageKey(chain)))
  }

  function Decrypt(s: State, p: Packet, newName: nat): Result<(State, Bytes), Error> {
    match KeyFor(s, p.header, newName)
    case Err(e) => Err(e)
    case Ok((next, key)) =>
      match Open(key, Nonce(p.header.messageNumber), Aad(EncodeHeader(p.header), p.associatedData), p.ciphertext)
      case None => Err(NotAuthentic)
      case Some(plaintext) => Ok((next, plaintext))
  }

  /** One decrypt, whatever the packet, adds at most 2 * MAX_SKIP cached keys. */
  lemma CacheGrowth(s: State, p: Packet, newName: nat)
    ensures var r := Decrypt(s, p, newName);
            r.Ok? ==> |r.value.0.skippedMessageKeys| <= |s.skippedMessageKeys| + 2 * MAX_SKIP
  {
    if IsCached(s, p.header) {
      var cacheKey := (p.header.dhPublicKey, p.header.messageNumber);
      FiniteSets.SmallerMap(s.skippedMessageKeys - {cacheKey}, s.skippedMessageKeys);
    } else {
      SkipGrowth(s, p.header.previousChainLength);
      var current := CatchUp(s, p.header, newName);
      if current.Ok? {
        SkipGrowth(current.value, p.header.messageNumber);
      }
    }
  }

  /** What SkippedRange holds, entry by entry. */
  lemma {:induction false} RangeEntry(remote: PublicKey, chainKey: Key, from: nat, until: nat, k: CacheKey)
    ensures var keys := SkippedRange(remote, chainKey, from, until);
            && (k in keys <==> k.0 == remote && from <= k.1 < until)
            && (k in keys ==> keys[k] == KeyAt(chainKey, k.1 - from))
    decreases until
  {
    if from < until {
      RangeEntry(remote, chainKey, from, until - 1, k);
    }
  }

  lemma {:induction false} RangeSize(remote: PublicKey, chainKey: Key, from: nat, until: nat)
    requires from <= until
    ensures |SkippedRange(remote, chainKey, from, until)| == until - from
    decreases until
  {
    if from < until {
      RangeSize(remote, chainKey, from, until - 1);
      RangeEntry(remote, chainKey, from, until - 1, (remote, until - 1));
    }
  }

  lemma UnionSize<K, V>(a: map<K, V>, b: map<K, V>)
    ensures |a + b| <= |a| + |b|
  {
    var added := b.Keys - a.Keys;
    assert (a + b).Keys == a.Keys + added;
    FiniteSets.SmallerSubset(added, b.Keys);
    assert |a| == |a.Keys| && |b| == |b.Keys| && |a + b| == |(a + b).Keys|;
  }

  lemma SkipGrowth(s: State, until: int)
    ensures var r := SkipUntil(s, until);
            r.Ok? ==> |r.value.skippedMessageKeys| <= |s.skippedMessageKeys| + MAX_SKIP
  {
    var r := SkipUntil(s, until);
    if r.Ok? && r.value != s {
      var range := SkippedRange(s.dhRemote.value, s.receivingChainKey.value, s.receiveMessageNumber, until);
      RangeSize(s.dhRemote.value, s.receivingChainKey.value, s.receiveMessageNumber, until);
      UnionSize(s.skippedMessageKeys, range);
    }
  }

  /** A cache with the skipped keys of from..n-1 becomes the one for from..n by
      storing one more key. */
  lemma RangeExtends(cache: map<CacheKey, Key>, remote: PublicKey, chainKey: Key, from: nat, n: nat)
    requires from <= n
    ensures cache + SkippedRange(remote, chainKey, from, n + 1)
            == (cache + SkippedRange(remote, chainKey, from, n))[(remote, n) := KeyAt(chainKey, n - from)]
  {
  }

  // ----- The same party as the object the source updates in place -----

  class DoubleRatchet {
    var rootKey: Key
    var dhSelf: nat
    var dhRemote: Option<PublicKey>
    var sendingChainKey: Option<Key>
    var receivingChainKey: Option<Key>
    var sendMessageNumber: nat
    var receiveMessageNumber: nat
    var previousSendingChainLength: nat
    var skippedMessageKeys: map<CacheKey, Key>

    /** getState: the fields as one value. */
    function GetState(): State
      reads this
    {
      State(rootKey, dhSelf, dhRemote, sendingChainKey, receivingChainKey, sendMessageNumber,
            receiveMessageNumber, previousSendingChainLength, skippedMessageKeys)
    }

    constructor FromState(s: State)
      ensures GetState() == s
    {
      rootKey, dhSelf, dhRemote := s.rootKey, s.dhSelf, s.dhRemote;
      sendingChainKey, receivingChainKey := s.sendingChainKey, s.receivingChainKey;
      sendMessageNumber, receiveMessageNumber := s.sendMessageNumber, s.receiveMessageNumber;
      previousSendingChainLength, skippedMessageKeys := s.previousSendingChainLength, s.skippedMessageKeys;
    }

    method RestoreState(s: State)
      modifies this
      ensures GetState() == s
    {
      rootKey, dhSelf, dhRemote := s.rootKey, s.dhSelf, s.dhRemote;
      sendingChainKey, receivingChainKey := s.sendingChainKey, s.receivingChainKey;
      sendMessageNumber, receiveMessageNumber := s.sendMessageNumber, s.receiveMessageNumber;
      previousSendingChainLength, skippedMessageKeys := s.previousSendingChainLength, s.skippedMessageKeys;
    }

    /** Derives and caches one key per skipped number; false stands for the thrown error. */
    method SkipMessageKeysUntil(until: int) returns (ok: bool)
      modifies this
      ensures ok == SkipUntil(old(GetState()), until).Ok?
      ensures GetState() == if ok then SkipUntil(old(GetState()), until).value else old(GetState())
    {
      if receivingChainKey.None? || dhRemote.None? { return true; }
      if until - receiveMessageNumber > MAX_SKIP { return false; }
      ghost var s := GetState();
      ghost var from, chain, remote := receiveMessageNumber, receivingChainKey.value, dhRemote.value;
      assert SkippedRange(remote, chain, from, from) == map[];
      while receiveMessageNumber < until
        invariant from <= receiveMessageNumber
        invariant receiveMessageNumber <= until || receiveMessageNumber == from
        invariant dhRemote == Some(remote)
        invariant receivingChainKey == Some(ChainAt(chain, receiveMessageNumber - from))
        invariant skippedMessageKeys == s.skippedMessageKeys + SkippedRange(remote, chain, from, receiveMessageNumber)
        invariant GetState() == s.(receivingChainKey := receivingChainKey,
                                   receiveMessageNumber := receiveMessageNumber,
                                   skippedMessageKeys := skippedMessageKeys)
      {
        RangeExtends(s.skippedMessageKeys, remote, chain, from, receiveMessageNumber);
        var messageKey := MessageKey(receivingChainKey.value);
        receivingChainKey := Some(NextChainKey(receivingChainKey.value));
        skippedMessageKeys := skippedMessageKeys[(dhRemote.value, receiveMessageNumber) := messageKey];
        receiveMessageNumber := receiveMessageNumber + 1;
      }
      return true;
    }

    method PerformDhRatchetStep(remote: PublicKey, newName: nat) returns (ok: bool)
      modifies this
      ensures ok == DhRatchetStep(old(GetState()), remote, newName).Ok?
      ensures ok ==> GetState() == DhRatchetStep(old(GetState()), remote, newName).value
    {
      previousSendingChainLength := sendMessageNumber;
      sendMessageNumber := 0;
      receiveMessageNumber := 0;
      dhRemote := Some(remote);
      var receive := Dh(dhSelf, remote);
      if receive.None? { return false; }
      receivingChainKey := Some(HkdfTail(rootKey, receive.value));
      rootKey := HkdfHead(rootKey, receive.value);
      dhSelf := newName;
      var send := Dh(dhSelf, remote);
      if send.None? { return false; }
      sendingChainKey := Some(HkdfTail(rootKey, send.value));
      rootKey := HkdfHead(rootKey, send.value);
      return true;
    }

    method EncryptMessage(plaintext: Bytes, associatedData: Bytes) returns (r: Result<Packet, Error>)
      modifies this
      ensures var e := Encrypt(old(GetState()), plaintext, associatedData);
              match e
              case Ok((next, packet)) => r == Ok(packet) && GetState() == next
              case Err(error) => r == Err(error) && GetState() == old(GetState())
    {
      if sendingChainKey.None? { return Err(NoSendingChain); }
      var messageKey := MessageKey(sendingChainKey.value);
      sendingChainKey := Some(NextChainKey(sendingChainKey.value));
      var header := Header(Point(dhSelf), previousSendingChainLength, sendMessageNumber);
      var aad := Aad(EncodeHeader(header), associatedData);
      var ciphertext := Sealed(messageKey, Nonce(sendMessageNumber), aad, plaintext);
      sendMessageNumber := sendMessageNumber + 1;
      return Ok(Packet(header, ciphertext, associatedData));
    }

    /** Decrypts in place and rolls every field back unless the packet authenticates. */
    method DecryptMessage(p: Packet, newName: nat) returns (r: Result<Bytes, Error>)
      modifies this
      ensures var d := Decrypt(old(GetState()), p, newName);
              match d
              case Ok((next, plaintext)) => r == Ok(plaintext) && GetState() == next
              case Err(_) => r.Err? && GetState() == old(GetState())
    {
      var before := GetState();
      r := TryDecrypt(p, newName);
      if r.Err? { RestoreState(before); }
    }

    /** The body of decrypt's try block: on an error the fields may be half updated. */
    method TryDecrypt(p: Packet, newName: nat) returns (r: Result<Bytes, Error>)
      modifies this
      ensures var d := Decrypt(old(GetState()), p, newName);
              match d
              case Ok((next, plaintext)) => r == Ok(plaintext) && GetState() == next
              case Err(_) => r.Err?
    {
      var aad, nonce := Aad(EncodeHeader(p.header), p.associatedData), Nonce(p.header.messageNumber);
      if p.header.messageNumber >= 0 && (p.header.dhPublicKey, p.header.messageNumber) in skippedMessageKeys {
        var cacheKey := (p.header.dhPublicKey, p.header.messageNumber);
        var plain := Open(skippedMessageKeys[cacheKey], nonce, aad, p.ciphertext);
        if plain.None? { return Err(NotAuthentic); }
        skippedMessageKeys := skippedMessageKeys - {cacheKey};
        return Ok(plain.value);
      }
      if dhRemote != Some(p.header.dhPublicKey) {
        var closed := SkipMessageKeysUntil(p.header.previousChainLength);
        if !closed { return Err(TooManySkipped); }
        var stepped := PerformDhRatchetStep(p.header.dhPublicKey, newName);
        if !stepped { return Err(BadPublicKey); }
      }
      var reached := SkipMessageKeysUntil(p.header.messageNumber);
      if !reached { return Err(TooManySkipped); }
      if receivingChainKey.None? { return Err(NoReceivingChain); }
      var messageKey := MessageKey(receivingChainKey.value);
      receivingChainKey := Some(NextChainKey(receivingChainKey.value));
      receiveMessageNumber := receiveMessageNumber + 1;
      var plain := Open(messageKey, nonce, aad, p.ciphertext);
      if plain.None? { return Err(NotAuthentic); }
      return Ok(plain.value);
    }
  }
}
