/**
 * The transit backend's data-key endpoint (pathDatakeyWrite): a fresh random key of
 * 128, 256 or 512 bits, encrypted under a named key policy and returned as ciphertext,
 * together with its base64 plaintext when the "plaintext" variant of the path is used.
 *
 * The lock manager's lookup, the policy's Encrypt, base64 and the random source are
 * parameters. A ghost trace records the calls the handler makes on them, in order, so
 * that the lock discipline (the deferred UnlockPolicy) can be stated.
 */
module TransitDatakey {
  import opened Wrappers

  type byte = bv8

  /** Standard base64 as a pair of functions; only RoundTrips is assumed of it, and only where stated. */
  datatype Base64 = Base64(encode: seq<byte> -> string, decode: string -> Option<seq<byte>>)

  ghost predicate RoundTrips(b: Base64)
  {
    forall key: seq<byte> :: b.decode(b.encode(key)) == Some(key)
  }

  /** The lock the lock manager took for the caller. */
  datatype LockType = SharedLock | ExclusiveLock

  /** The error kinds Encrypt distinguishes (certutil.UserError, certutil.InternalError, any other). */
  datatype EncryptError = UserError(message: string) | InternalError(message: string) | OtherError(message: string)

  /** A key policy, seen through its Encrypt(context, base64 value). */
  datatype Policy = Policy(encrypt: (Option<seq<byte>>, string) -> Result<string, EncryptError>)

  /** What the lock manager's GetPolicy returns; Found holds the lock until it is unlocked. */
  datatype Lookup = LookupError(error: string) | NotFound | Found(policy: Policy, lock: LockType)

  /** A random source: it yields these bytes and then fails with this error ("EOF" at end of stream). */
  datatype RandomSource = RandomSource(bytes: seq<byte>, failure: string)

  /** The request's fields after the framework's defaults (bits defaults to 256, context to ""). */
  datatype DatakeyRequest = DatakeyRequest(name: string, plaintext: string, context: string, bits: int)

  /**
   * The handler's two results: a response (nil error), an error response paired with
   * logical.ErrInvalidRequest, or a nil response with an error.
   */
  datatype Outcome = Response(data: map<string, string>) | InvalidRequest(message: string) | Error(message: string)

  /** The calls the handler makes on the lock manager, the random source and the policy. */
  datatype Event =
    | PolicyLookup(name: string)
    | RandomRead(length: nat)
    | EncryptCall(context: Option<seq<byte>>, value: string)
    | PolicyUnlock(name: string, lock: LockType)

  const INVALID_PATH := "Invalid path, must be 'plaintext' or 'wrapped'"
  const BAD_CONTEXT := "failed to decode context as base64"
  const POLICY_NOT_FOUND := "policy not found"
  const INVALID_BIT_LENGTH := "invalid bit length"
  const EMPTY_CIPHERTEXT := "empty ciphertext returned"
  const EOF := "EOF"
  const UNEXPECTED_EOF := "unexpected EOF"

  // ---------------------------------------------------------------------------
  // The handler's steps as functions

  /** Whether the path variant returns the plaintext: Some(true) for "plaintext", Some(false) for "wrapped". */
  function Mode(variant: string): (allowed: Option<bool>)
    ensures allowed.Some? <==> variant == "plaintext" || variant == "wrapped"
    ensures allowed == Some(true) <==> variant == "plaintext"
  {
    if variant == "plaintext" then Some(true)
    else if variant == "wrapped" then Some(false)
    else None
  }

  /** The derivation context: none when the field is empty, else its base64 decoding. */
  function DecodeContext(b64: Base64, raw: string): (r: Result<Option<seq<byte>>, string>)
    ensures raw == "" ==> r == Ok(None)
    ensures raw != "" && b64.decode(raw).None? ==> r == Err(BAD_CONTEXT)
    ensures raw != "" && b64.decode(raw).Some? ==> r == Ok(b64.decode(raw))
  {
    if |raw| == 0 then Ok(None)
    else
      match b64.decode(raw)
      case None => Err(BAD_CONTEXT)
      case Some(bytes) => Ok(Some(bytes))
  }

  /** The key length in bytes for a bit count: only 128, 256 and 512 bits are accepted. */
  function KeyLength(bits: int): (n: Option<nat>)
    ensures n.Some? <==> bits == 128 || bits == 256 || bits == 512
    ensures n.Some? ==> n.value * 8 == bits
  {
    if bits == 512 then Some(64)
    else if bits == 256 then Some(32)
    else if bits == 128 then Some(16)
    else None
  }

  /**
   * rand.Read, which is io.ReadFull on the system's random source: the first `length`
   * bytes, or the source's error; a source that ends after some but not all of them
   * gives "unexpected EOF".
   */
  function ReadFull(length: nat, source: RandomSource): (r: Result<seq<byte>, string>)
    ensures r.Ok? <==> length <= |source.bytes|
    ensures r.Ok? ==> |r.value| == length && r.value == source.bytes[..length]
  {
    if length <= |source.bytes| then Ok(source.bytes[..length])
    else if 0 < |source.bytes| && source.failure == EOF then Err(UNEXPECTED_EOF)
    else Err(source.failure)
  }

  /** The part of the handler after the policy is found and locked: key, encryption, response. */
  function Issue(p: Policy, context: Option<seq<byte>>, bits: int, plaintextAllowed: bool,
                 b64: Base64, source: RandomSource): (out: Outcome)
    ensures out.Response? ==>
              && KeyLength(bits).Some? && KeyLength(bits).value <= |source.bytes|
              && var encoded := b64.encode(source.bytes[..KeyLength(bits).value]);
                 && p.encrypt(context, encoded).Ok?
                 && out.data.Keys == (if plaintextAllowed then {"ciphertext", "plaintext"} else {"ciphertext"})
                 && out.data["ciphertext"] == p.encrypt(context, encoded).value
                 && p.encrypt(context, encoded).value != ""
                 && (plaintextAllowed ==> out.data["plaintext"] == encoded)
  {
    match KeyLength(bits)
    case None => InvalidRequest(INVALID_BIT_LENGTH)
    case Some(n) =>
      match ReadFull(n, source)
      case Err(e) => Error(e)
      case Ok(key) =>
        var encoded := b64.encode(key);
        match p.encrypt(context, encoded)
        case Err(UserError(m)) => InvalidRequest(m)
        case Err(InternalError(m)) => Error(m)
        case Err(OtherError(m)) => Error(m)
        case Ok(ciphertext) =>
          if ciphertext == "" then Error(EMPTY_CIPHERTEXT)
          else if plaintextAllowed then Response(map["ciphertext" := ciphertext, "plaintext" := encoded])
          else Response(map["ciphertext" := ciphertext])
  }

  /** The calls Issue makes: a random read once the length is valid, Encrypt once the read succeeds. */
  function IssueEvents(context: Option<seq<byte>>, bits: int, b64: Base64, source: RandomSource): (t: seq<Event>)
    ensures t != [] <==> KeyLength(bits).Some?
    ensures t != [] ==> t[0] == RandomRead(KeyLength(bits).value)
    ensures forall i :: 0 < i < |t| ==>
              i == 1 && KeyLength(bits).value <= |source.bytes|
              && t[i] == EncryptCall(context, b64.encode(source.bytes[..KeyLength(bits).value]))
  {
    match KeyLength(bits)
    case None => []
    case Some(n) =>
      match ReadFull(n, source)
      case Err(_) => [RandomRead(n)]
      case Ok(key) => [RandomRead(n), EncryptCall(context, b64.encode(key))]
  }

  /** pathDatakeyWrite's result. */
  function Datakey(req: DatakeyRequest, b64: Base64, getPolicy: string -> Lookup, source: RandomSource): (out: Outcome)
    ensures out.Response? ==>
              Mode(req.plaintext).Some? && DecodeContext(b64, req.context).Ok? && getPolicy(req.name).Found?
  {
    var mode := Mode(req.plaintext);
    var context := DecodeContext(b64, req.context);
    if mode.None? then InvalidRequest(INVALID_PATH)
    else if context.Err? then InvalidRequest(context.error)
    else
      match getPolicy(req.name)
      case LookupError(e) => Error(e)
      case NotFound => InvalidRequest(POLICY_NOT_FOUND)
      case Found(p, _) => Issue(p, context.value, req.bits, mode.value, b64, source)
  }

  /** pathDatakeyWrite's calls, ending with the deferred unlock whenever the policy was found. */
  function DatakeyEvents(req: DatakeyRequest, b64: Base64, getPolicy: string -> Lookup, source: RandomSource): (t: seq<Event>)
    ensures t != [] <==> Mode(req.plaintext).Some? && DecodeContext(b64, req.context).Ok?
    ensures t != [] ==> t[0] == PolicyLookup(req.name)
    ensures t != [] && getPolicy(req.name).Found? ==> t[|t| - 1] == PolicyUnlock(req.name, getPolicy(req.name).lock)
    ensures t != [] && !getPolicy(req.name).Found? ==> t == [PolicyLookup(req.name)]
  {
    var context := DecodeContext(b64, req.context);
    if Mode(req.plaintext).None? || context.Err? then []
    else
      match getPolicy(req.name)
      case Found(_, lock) =>
        [PolicyLookup(req.name)] + IssueEvents(context.value, req.bits, b64, source) + [PolicyUnlock(req.name, lock)]
      case _ => [PolicyLookup(req.name)]
  }

  // ---------------------------------------------------------------------------
  // The handler

  /** rand.Read(buf): fills buf in place from the source, as far as the source reaches. */
  method ReadRandom(buf: array<byte>, source: RandomSource) returns (err: Option<string>)
    modifies buf
    ensures var r := ReadFull(buf.Length, source);
            && (r.Ok? ==> err == None && buf[..] == r.value)
            && (r.Err? ==> err == Some(r.error))
    ensures var m := if buf.Length <= |source.bytes| then buf.Length else |source.bytes|;
            buf[..m] == source.bytes[..m] && buf[m..] == old(buf[m..])
  {
    var i := 0;
    while i < buf.Length && i < |source.bytes|
      invariant 0 <= i <= buf.Length && i <= |source.bytes|
      invariant buf[..i] == source.bytes[..i]
      invariant buf[i..] == old(buf[i..])
    {
      buf[i] := source.bytes[i];
      i := i + 1;
    }
    if i == buf.Length {
      err := None;
    } else if 0 < i && source.failure == EOF {
      err := Some(UNEXPECTED_EOF);
    } else {
      err := Some(source.failure);
    }
  }

  /** The handler from `newKey := make([]byte, 32)` to its return, run while the policy is locked. */
  method UnderLock(p: Policy, context: Option<seq<byte>>, bits: int, plaintextAllowed: bool,
                   b64: Base64, source: RandomSource)
    returns (out: Outcome, ghost events: seq<Event>)
    ensures out == Issue(p, context, bits, plaintextAllowed, b64, source)
    ensures events == IssueEvents(context, bits, b64, source)
  {
    events := [];
    var newKey := new byte[32];
    if bits == 512 {
      newKey := new byte[64];
    } else if bits == 256 {
    } else if bits == 128 {
      newKey := new byte[16];
    } else {
      return InvalidRequest(INVALID_BIT_LENGTH), events;
    }
    events := events + [RandomRead(newKey.Length)];
    var err := ReadRandom(newKey, source);
    if err.Some? {
      return Error(err.value), events;
    }
    var encoded := b64.encode(newKey[..]);
    events := events + [EncryptCall(context, encoded)];
    var result := p.encrypt(context, encoded);
    if result.Err? {
      match result.error {
        case UserError(m) => return InvalidRequest(m), events;
        case InternalError(m) => return Error(m), events;
        case OtherError(m) => return Error(m), events;
      }
    }
    var ciphertext := result.value;
    if ciphertext == "" {
      return Error(EMPTY_CIPHERTEXT), events;
    }
    var data := map["ciphertext" := ciphertext];
    if plaintextAllowed {
      data := data["plaintext" := b64.encode(newKey[..])];
    }
    out := Response(data);
  }

  /** pathDatakeyWrite. */
  method DatakeyWrite(req: DatakeyRequest, b64: Base64, getPolicy: string -> Lookup, source: RandomSource)
    returns (out: Outcome, ghost trace: seq<Event>)
    ensures out == Datakey(req, b64, getPolicy, source)
    ensures trace == DatakeyEvents(req, b64, getPolicy, source)
  {
    trace := [];
    var plaintextAllowed := false;
    if req.plaintext == "plaintext" {
      plaintextAllowed := true;
    } else if req.plaintext != "wrapped" {
      return InvalidRequest(INVALID_PATH), trace;
    }
    var context: Option<seq<byte>> := None;
    if |req.context| != 0 {
      var decoded := b64.decode(req.context);
      if decoded.None? {
        return InvalidRequest(BAD_CONTEXT), trace;
      }
      context := decoded;
    }
    trace := trace + [PolicyLookup(req.name)];
    var lookup := getPolicy(req.name);
    match lookup {
      case LookupError(e) =>
        return Error(e), trace;
      case NotFound =>
        return InvalidRequest(POLICY_NOT_FOUND), trace;
      case Found(p, lockType) =>
        ghost var events;
        out, events := UnderLock(p, context, req.bits, plaintextAllowed, b64, source);
        trace := trace + events + [PolicyUnlock(req.name, lockType)];
    }
  }

  // ---------------------------------------------------------------------------
  // Properties

  /**
   * The lock discipline: the policy is looked up at most once, first; every random read
   * and Encrypt call happens after a successful lookup and before the unlock; and the
   * unlock, with the lock the lookup took, is the last call exactly when the lookup
   * found the policy.
   */
  lemma LockHeldAroundKeyWork(req: DatakeyRequest, b64: Base64, getPolicy: string -> Lookup, source: RandomSource)
    ensures var t := DatakeyEvents(req, b64, getPolicy, source);
            var found := getPolicy(req.name);
            && (t != [] ==> t[0] == PolicyLookup(req.name))
            && (forall i :: 0 <= i < |t| && t[i].PolicyLookup? ==> i == 0)
            && (forall i :: 0 <= i < |t| && (t[i].RandomRead? || t[i].EncryptCall?) ==> 0 < i < |t| - 1 && found.Found?)
            && (forall i :: 0 <= i < |t| && t[i].PolicyUnlock? ==> i == |t| - 1)
            && (t != [] && found.Found? ==> t[|t| - 1] == PolicyUnlock(req.name, found.lock))
            && (t != [] && t[|t| - 1].PolicyUnlock? ==> found.Found?)
            && (t != [] <==> Mode(req.plaintext).Some? && DecodeContext(b64, req.context).Ok?)
  {
    var t := DatakeyEvents(req, b64, getPolicy, source);
    var context := DecodeContext(b64, req.context);
    if Mode(req.plaintext).Some? && context.Ok? && getPolicy(req.name).Found? {
      var middle := IssueEvents(context.value, req.bits, b64, source);
      assert t == [PolicyLookup(req.name)] + middle + [PolicyUnlock(req.name, getPolicy(req.name).lock)];
      assert forall i :: 0 <= i < |middle| ==> middle[i].RandomRead? || middle[i].EncryptCall?;
      assert forall i :: 0 < i < |t| - 1 ==> t[i] == middle[i - 1];
    }
  }

  /**
   * The response always carries a non-empty ciphertext, which is what the policy's Encrypt
   * returned for the context and the base64 of the random key; it carries that same base64
   * key as the plaintext exactly when the "plaintext" variant of the path was used, and
   * the trace shows Encrypt was called with it; nothing else is in the response.
   */
  lemma ResponseShape(req: DatakeyRequest, b64: Base64, getPolicy: string -> Lookup, source: RandomSource)
    ensures var out := Datakey(req, b64, getPolicy, source);
            out.Response? ==>
              && KeyLength(req.bits).Some? && KeyLength(req.bits).value <= |source.bytes|
              && getPolicy(req.name).Found? && DecodeContext(b64, req.context).Ok?
              && var key := source.bytes[..KeyLength(req.bits).value];
                 var context := DecodeContext(b64, req.context).value;
                 var r := getPolicy(req.name).policy.encrypt(context, b64.encode(key));
                 && r.Ok?
                 && "ciphertext" in out.data && out.data["ciphertext"] == r.value && r.value != ""
                 && ("plaintext" in out.data <==> req.plaintext == "plaintext")
                 && ("plaintext" in out.data ==> out.data["plaintext"] == b64.encode(key))
                 && out.data.Keys <= {"ciphertext", "plaintext"}
                 && EncryptCall(context, b64.encode(key)) in DatakeyEvents(req, b64, getPolicy, source)
  {
    var out := Datakey(req, b64, getPolicy, source);
    if out.Response? {
      var n := KeyLength(req.bits).value;
      var context := DecodeContext(b64, req.context).value;
      var middle := IssueEvents(context, req.bits, b64, source);
      assert DatakeyEvents(req, b64, getPolicy, source)[2] == middle[1];
    }
  }

  /**
   * When the lock manager fails or finds no policy, the handler returns its error or
   * "policy not found", after the lookup alone: no unlock, no random read, no Encrypt.
   */
  lemma LookupFailures(req: DatakeyRequest, b64: Base64, getPolicy: string -> Lookup, source: RandomSource)
    requires Mode(req.plaintext).Some? && DecodeContext(b64, req.context).Ok?
    ensures getPolicy(req.name).NotFound? ==> Datakey(req, b64, getPolicy, source) == InvalidRequest(POLICY_NOT_FOUND)
    ensures getPolicy(req.name).LookupError? ==> Datakey(req, b64, getPolicy, source) == Error(getPolicy(req.name).error)
    ensures !getPolicy(req.name).Found? ==> DatakeyEvents(req, b64, getPolicy, source) == [PolicyLookup(req.name)]
  {
  }

  /**
   * A response is given exactly when every check passes: a valid variant, a decodable
   * context, a found policy, a supported bit count, a full random read and a non-empty
   * ciphertext from Encrypt.
   */
  lemma ResponseExactlyWhenChecksPass(req: DatakeyRequest, b64: Base64, getPolicy: string -> Lookup, source: RandomSource)
    ensures Datakey(req, b64, getPolicy, source).Response? <==>
      && Mode(req.plaintext).Some?
      && DecodeContext(b64, req.context).Ok?
      && getPolicy(req.name).Found?
      && KeyLength(req.bits).Some?
      && KeyLength(req.bits).value <= |source.bytes|
      && var key := source.bytes[..KeyLength(req.bits).value];
         var r := getPolicy(req.name).policy.encrypt(DecodeContext(b64, req.context).value, b64.encode(key));
         r.Ok? && r.value != ""
  {
  }

  /**
   * The returned plaintext is the base64 of the random key: with a base64 that round-trips,
   * it decodes to the first bits/8 bytes the random source produced, and the ciphertext
   * beside it is what the policy's Encrypt made of exactly that plaintext.
   */
  lemma PlaintextIsTheKey(req: DatakeyRequest, b64: Base64, getPolicy: string -> Lookup, source: RandomSource)
    requires RoundTrips(b64)
    ensures var out := Datakey(req, b64, getPolicy, source);
            out.Response? && "plaintext" in out.data ==>
              && KeyLength(req.bits).Some?
              && KeyLength(req.bits).value <= |source.bytes|
              && var key := source.bytes[..KeyLength(req.bits).value];
                 && b64.decode(out.data["plaintext"]) == Some(key)
                 && |key| * 8 == req.bits
                 && getPolicy(req.name).Found? && DecodeContext(b64, req.context).Ok?
                 && getPolicy(req.name).policy.encrypt(DecodeContext(b64, req.context).value, out.data["plaintext"])
                    == Ok(out.data["ciphertext"])
  {
    var out := Datakey(req, b64, getPolicy, source);
    if out.Response? && "plaintext" in out.data {
      var n := KeyLength(req.bits).value;
      assert out.data["plaintext"] == b64.encode(source.bytes[..n]);
    }
  }

  /** The errors before the policy lookup: the path variant is checked first, then the context. */
  lemma EarlyRejections(req: DatakeyRequest, b64: Base64, getPolicy: string -> Lookup, source: RandomSource)
    ensures req.plaintext != "plaintext" && req.plaintext != "wrapped" ==>
              Datakey(req, b64, getPolicy, source) == InvalidRequest(INVALID_PATH)
    ensures Mode(req.plaintext).Some? && req.context != "" && b64.decode(req.context).None? ==>
              Datakey(req, b64, getPolicy, source) == InvalidRequest(BAD_CONTEXT)
  {
  }

  /** A bit count other than 128, 256 or 512 is refused, after the lookup, without reading random bytes. */
  lemma BadBitsReadNoRandom(req: DatakeyRequest, b64: Base64, getPolicy: string -> Lookup, source: RandomSource)
    requires Mode(req.plaintext).Some? && DecodeContext(b64, req.context).Ok? && getPolicy(req.name).Found?
    requires req.bits != 128 && req.bits != 256 && req.bits != 512
    ensures Datakey(req, b64, getPolicy, source) == InvalidRequest(INVALID_BIT_LENGTH)
    ensures DatakeyEvents(req, b64, getPolicy, source)
            == [PolicyLookup(req.name), PolicyUnlock(req.name, getPolicy(req.name).lock)]
  {
  }

  /** How Encrypt's errors reach the caller: a user error as an invalid request, any other as an error. */
  lemma EncryptErrorsMapped(req: DatakeyRequest, b64: Base64, getPolicy: string -> Lookup, source: RandomSource)
    requires Mode(req.plaintext).Some? && DecodeContext(b64, req.context).Ok? && getPolicy(req.name).Found?
    requires KeyLength(req.bits).Some? && KeyLength(req.bits).value <= |source.bytes|
    ensures var key := source.bytes[..KeyLength(req.bits).value];
            var r := getPolicy(req.name).policy.encrypt(DecodeContext(b64, req.context).value, b64.encode(key));
            var out := Datakey(req, b64, getPolicy, source);
            && (r.Err? && r.error.UserError? ==> out == InvalidRequest(r.error.message))
            && (r.Err? && !r.error.UserError? ==> out == Error(r.error.message))
            && (r == Ok("") ==> out == Error(EMPTY_CIPHERTEXT))
  {
  }

  /**
   * A short random read is returned to the caller as the error io.ReadFull gives, after the
   * lookup and the read and before the deferred unlock; Encrypt is never called.
   */
  lemma ShortReadPassesError(req: DatakeyRequest, b64: Base64, getPolicy: string -> Lookup, source: RandomSource)
    requires Mode(req.plaintext).Some? && DecodeContext(b64, req.context).Ok? && getPolicy(req.name).Found?
    requires KeyLength(req.bits).Some? && KeyLength(req.bits).value > |source.bytes|
    ensures var n := KeyLength(req.bits).value;
            && ReadFull(n, source).Err?
            && Datakey(req, b64, getPolicy, source) == Error(ReadFull(n, source).error)
            && DatakeyEvents(req, b64, getPolicy, source)
               == [PolicyLookup(req.name), RandomRead(n), PolicyUnlock(req.name, getPolicy(req.name).lock)]
  {
  }
}
