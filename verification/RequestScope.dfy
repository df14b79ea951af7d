/**
 One request against the browser's real cookies (auth.go, user.go): the middleware's hand-off and
 the handler calls, on the shared mutable payload and the chunked jar.
 */
module RequestScope {
  import opened Wrappers
  import opened Clock
  import opened Payload
  import opened Config
  import opened Answers
  import opened Cookies
  import opened Revalidate
  import opened Handlers
  import SessionRuns

  /** Authenticated encryption with a nonce, then base64url; `open` fails on anything not sealed. */
  datatype Codec = Codec(seal: (Payload, nat) -> string, open: string -> Option<Payload>)

  ghost predicate Lawful(c: Codec) {
    forall p: Payload, nonce: nat ::
      c.open(c.seal(p, nonce)) == Some(p) && ColonFree(c.seal(p, nonce))
  }

  datatype SessionError = NoSessionError | InvalidError | ExpiredError | RevokedError

  datatype Decoded = Session(p: Payload) | Failure(err: SessionError)

  /** The session a jar holds, its expiry aside. */
  function CellOf(jar: Jar, base: string, codec: Codec): Option<Payload> {
    match ReadEncoded(jar, base)
    case Encoded(value) => codec.open(value)
    case _ => None
  }

  /** readSessionCookie including decryptSession. */
  function Decode(jar: Jar, base: string, codec: Codec, now: Time): Decoded {
    match ReadEncoded(jar, base)
    case NoSession => Failure(NoSessionError)
    case Invalid => Failure(InvalidError)
    case Encoded(value) =>
      match codec.open(value)
      case None => Failure(InvalidError)
      case Some(p) => if Unix(now) > p.exp then Failure(ExpiredError) else Session(p)
  }

  lemma WrittenSessionIsRead(codec: Codec, jar: Jar, base: string, p: Payload, nonce: nat)
    requires Lawful(codec) && Fits(codec.seal(p, nonce))
    ensures CellOf(WriteEncoded(jar, base, codec.seal(p, nonce)), base, codec) == Some(p)
  {
    WriteThenRead(jar, base, codec.seal(p, nonce));
  }

  /** What a request is told about its cookie: missing, unreadable, expired, or the session. */
  lemma DecodeExactly(codec: Codec, jar: Jar, base: string, now: Time)
    ensures var decoded := Decode(jar, base, codec, now);
            match CellOf(jar, base, codec)
            case Some(p) => decoded == if now < (p.exp + 1) * SECOND then Session(p) else Failure(ExpiredError)
            case None => decoded == Failure(if base in jar then InvalidError else NoSessionError)
  {
  }

  /** sessionHolder: no middleware ran, it served a payload, or it decided there is no session. */
  datatype Holder = Unmanaged | Serving(payload: SessionPayload) | Refusing(err: SessionError)

  class RequestScope {
    const cfg: Config
    const codec: Codec
    const jar: CookieJar
    const sent: Jar
    const now: Time
    var nonce: nat
    var holder: Holder

    /** A request carries the cookies the browser holds when it is sent. */
    constructor (cfg: Config, codec: Codec, jar: CookieJar, now: Time, nonce: nat)
      ensures this.cfg == cfg && this.codec == codec && this.jar == jar && this.now == now
      ensures sent == jar.cookies && holder == Unmanaged
    {
      this.cfg, this.codec, this.jar, this.now := cfg, codec, jar, now;
      this.sent := jar.cookies;
      this.nonce, this.holder := nonce, Unmanaged;
    }

    /** The jar decodes to the payload the request is served with. */
    ghost predicate Faithful()
      reads this, jar, if holder.Serving? then {holder.payload} else {}
    {
      holder.Serving? ==> CellOf(jar.cookies, cfg.cookieName, codec) == Some(holder.payload.Value())
    }

    method WriteSession(payload: SessionPayload) returns (ok: bool)
      modifies jar, `nonce
      ensures jar.cookies == WriteEncoded(old(jar.cookies), cfg.cookieName, codec.seal(payload.Value(), old(nonce)))
      ensures ok == Fits(codec.seal(payload.Value(), old(nonce)))
      ensures Lawful(codec) && ok ==> CellOf(jar.cookies, cfg.cookieName, codec) == Some(payload.Value())
      ensures !ok ==> jar.cookies == old(jar.cookies)
    {
      var encrypted := codec.seal(payload.Value(), nonce);
      if Lawful(codec) && Fits(encrypted) {
        WrittenSessionIsRead(codec, jar.cookies, cfg.cookieName, payload.Value(), nonce);
      }
      nonce := nonce + 1;
      ok := jar.SetSessionCookie(cfg.cookieName, encrypted);
    }

    /**
     RequireSession and OptionalSession up to the handler. `persisted` is false when a re-stamped session
     was too large to write back.
     */
    method Serve(shared: Shared) returns (persisted: bool)
      requires holder.Unmanaged? && sent == jar.cookies
      requires match Decode(sent, cfg.cookieName, codec, now)
               case Session(p) => Fitting(DueWork(cfg, p, now), shared)
               case Failure(_) => true
      modifies this`holder, `nonce, jar
      ensures !holder.Unmanaged?
      ensures match Decode(sent, cfg.cookieName, codec, now)
              case Failure(err) => persisted && holder == Refusing(err) && jar.cookies == sent
              case Session(p) =>
                (match MaybeRevalidate(cfg, p, now, shared)
                 case SignedOut =>
                   persisted && holder == Refusing(RevokedError) && jar.cookies == ClearSession(sent, cfg.cookieName)
                 case Kept(q) =>
                   && persisted && holder.Serving? && fresh(holder.payload)
                   && holder.payload.Value() == q && jar.cookies == sent
                 case Stamped(q) =>
                   && holder.Serving? && fresh(holder.payload) && holder.payload.Value() == q
                   && persisted == Fits(codec.seal(q, old(nonce)))
                   && jar.cookies == WriteEncoded(sent, cfg.cookieName, codec.seal(q, old(nonce))))
      ensures Lawful(codec) && persisted ==> Faithful()
    {
      var decoded := Decode(sent, cfg.cookieName, codec, now);
      if decoded.Failure? {
        holder := Refusing(decoded.err);
        return true;
      }
      var payload := new SessionPayload(decoded.p);
      var revalidator := new Revalidator(cfg);
      var write, signedOut := revalidator.MaybeRevalidateRecord(payload, now, shared);
      if signedOut {
        jar.ClearSessionCookie(cfg.cookieName);
        holder := Refusing(RevokedError);
        return true;
      }
      persisted := true;
      if write {
        persisted := WriteSession(payload);
      }
      holder := Serving(payload);
    }

    /** currentSession: the served payload, the recorded refusal, or the cookie the request carried. */
    method CurrentSession() returns (payload: SessionPayload?, err: SessionError)
      ensures match holder
              case Serving(p) => payload == p
              case Refusing(e) => payload == null && err == e
              case Unmanaged =>
                (match Decode(sent, cfg.cookieName, codec, now)
                 case Session(p) => payload != null && fresh(payload) && payload.Value() == p
                 case Failure(e) => payload == null && err == e)
    {
      err := NoSessionError;
      match holder {
        case Serving(p) => payload := p;
        case Refusing(e) => payload, err := null, e;
        case Unmanaged =>
          var decoded := Decode(sent, cfg.cookieName, codec, now);
          if decoded.Session? {
            payload := new SessionPayload(decoded.p);
          } else {
            payload, err := null, decoded.err;
          }
      }
    }

    /**
     One handler call. Session() is Read; the mutate callbacks of UpdateSession and UpdateSessionIf are
     given by the User they produce. `ok` is false when there is no session; `persisted` is false when
     the session became too large to write back.
     */
    method Call(op: Op) returns (ok: bool, persisted: bool)
      modifies `nonce, jar, if holder.Serving? then {holder.payload} else {}
      ensures holder.Refusing? ==> !ok && persisted && jar.cookies == old(jar.cookies)
      ensures holder.Serving? ==>
                var p := old(holder.payload.Value());
                && ok && holder.payload.Value() == AfterOp(cfg, p, op)
                && (persisted <==> (Writes(cfg, p, op) ==> Fits(codec.seal(AfterOp(cfg, p, op), old(nonce)))))
      ensures Lawful(codec) && persisted && old(Faithful()) ==> Faithful()
      ensures holder.Unmanaged? && Lawful(codec) && persisted ==>
                match Decode(sent, cfg.cookieName, codec, now)
                case Failure(_) => !ok && jar.cookies == old(jar.cookies)
                case Session(p) =>
                  if Writes(cfg, p, op) then CellOf(jar.cookies, cfg.cookieName, codec) == Some(AfterOp(cfg, p, op))
                  else jar.cookies == old(jar.cookies)
    {
      var payload, err := CurrentSession();
      if payload == null {
        return false, true;
      }
      persisted := true;
      match op {
        case Read =>
        case Update(user) =>
          payload.SetFromUser(user);
          persisted := WriteSession(payload);
        case UpdateIf(user, changed) =>
          if changed {
            payload.SetFromUser(user);
            persisted := WriteSession(payload);
          }
        case Access(answer) =>
          if HoldsAccessToken(cfg, payload.Value()) && answer.Refreshed?
              && answer.tokens.access != payload.accessToken {
            payload.accessToken := answer.tokens.access;
            payload.accessTokenExp := Unix(answer.tokens.expiry);
            if answer.tokens.refresh != "" {
              payload.refreshToken := answer.tokens.refresh;
            }
            persisted := WriteSession(payload);
          }
      }
      return true, persisted;
    }

    /** A handler: any list of calls. */
    method Handle(ops: seq<Op>, ghost idp: Idp) returns (persisted: bool)
      modifies `nonce, jar, if holder.Serving? then {holder.payload} else {}
      ensures holder.Refusing? ==> persisted && jar.cookies == old(jar.cookies)
      ensures holder.Serving? ==>
                holder.payload.Value() == RunOps(cfg, Scope(old(holder.payload.Value()), idp), ops).payload
      ensures Lawful(codec) && persisted && old(Faithful()) ==> Faithful()
    {
      ghost var scope := if holder.Serving? then Scope(holder.payload.Value(), idp) else Scope(EmptyPayload(), idp);
      ghost var whole := RunOps(cfg, scope, ops);
      persisted := true;
      for i := 0 to |ops|
        invariant holder.Refusing? ==> persisted && jar.cookies == old(jar.cookies)
        invariant holder.Serving? ==> holder.payload.Value() == scope.payload
        invariant RunOps(cfg, scope, ops[i..]) == whole
        invariant Lawful(codec) && persisted && old(Faithful()) ==> Faithful()
      {
        var _, written := Call(ops[i]);
        persisted := persisted && written;
        scope := RunOp(cfg, scope, ops[i]);
        assert ops[i..][1..] == ops[i + 1..];
      }
    }

    /**
     The whole request. When every write persists, what the browser's jar decodes to afterwards is what
     the run model's visit leaves in its cell, for a world that agrees on the clock and the cell.
     */
    method HandleRequest(shared: Shared, ops: seq<Op>, ghost w: SessionRuns.World) returns (persisted: bool)
      requires holder.Unmanaged? && sent == jar.cookies
      requires w.now == now && w.cell == CellOf(sent, cfg.cookieName, codec)
      requires SessionRuns.Live(w) ==> Fitting(DueWork(cfg, w.cell.value, now), shared)
      modifies this, jar
      ensures Lawful(codec) && persisted ==>
                CellOf(jar.cookies, cfg.cookieName, codec) ==
                if SessionRuns.Live(w) then SessionRuns.AfterVisit(cfg, w, shared, ops).cell else w.cell
      ensures holder.Refusing? && holder.err.RevokedError? ==> ReadEncoded(jar.cookies, cfg.cookieName).NoSession?
    {
      var stamped := Serve(shared);
      SessionNamesHoldBase(cfg.cookieName, MAX_CHUNKS);
      ghost var idp := if SessionRuns.Live(w)
                       then SessionRuns.IdpAfterWork(w, w.cell.value, DueWork(cfg, w.cell.value, now), shared)
                       else w.idp;
      var handled := Handle(ops, idp);
      return stamped && handled;
    }

    /**
     A handler without the middleware: the calls start again from the cookies the request carried, and when
     every write persists the jar decodes to what the unmanaged run leaves in the browser.
     */
    method HandleUnmanaged(ops: seq<Op>, ghost idp: Idp) returns (persisted: bool)
      requires holder.Unmanaged? && sent == jar.cookies && Decode(sent, cfg.cookieName, codec, now).Session?
      modifies `nonce, jar
      ensures var p := Decode(sent, cfg.cookieName, codec, now).p;
              Lawful(codec) && persisted ==>
                CellOf(jar.cookies, cfg.cookieName, codec) == Some(RunUnmanaged(cfg, p, Scope(p, idp), ops).payload)
    {
      ghost var p := Decode(sent, cfg.cookieName, codec, now).p;
      ghost var scope := Scope(p, idp);
      ghost var whole := RunUnmanaged(cfg, p, scope, ops);
      persisted := true;
      for i := 0 to |ops|
        invariant holder.Unmanaged?
        invariant RunUnmanaged(cfg, p, scope, ops[i..]) == whole
        invariant Lawful(codec) && persisted ==> CellOf(jar.cookies, cfg.cookieName, codec) == Some(scope.payload)
      {
        var _, written := Call(ops[i]);
        persisted := persisted && written;
        scope := RunOpUnmanaged(cfg, p, scope, ops[i]);
        assert ops[i..][1..] == ops[i + 1..];
      }
    }
  }

  function EmptyPayload(): Payload {
    Payload(Profile("", "", false, "", "", [], map[], [], ""), "", 0, "", "", 0, 0, 0, "", 0)
  }
}
