/** Writes that a caller may retry: look the key up, run, record, replay (cmd/control-api/writes.go). */
module Idempotency {

  import opened Text
  import J = Json

  const MAX_BODY := 65536
  const MAX_KEY_LENGTH := 255

  // What a handler does to the response it is given.
  datatype Call = Header(code: int) | Write(bytes: string)

  datatype Response = Response(status: int, body: string)

  /** What the caller receives: the first status decides, and writing without one means 200. */
  function Sent(calls: seq<Call>): Response {
    Response(SentStatus(calls), Body(calls))
  }

  function SentStatus(calls: seq<Call>): int {
    if calls == [] || calls[0].Write? then 200 else calls[0].code
  }

  function Body(calls: seq<Call>): string {
    if calls == [] then ""
    else match calls[|calls| - 1]
         case Header(_) => Body(calls[..|calls| - 1])
         case Write(bytes) => Body(calls[..|calls| - 1]) + bytes
  }

  function LastStatus(calls: seq<Call>): int {
    if calls == [] then 200
    else match calls[|calls| - 1]
         case Header(code) => code
         case Write(_) => LastStatus(calls[..|calls| - 1])
  }

  /** The wrapper around the response that remembers what went through it. */
  class Recorder {
    var status: int
    var body: string
    var wire: Option<int>  // the status line, once it has gone out
    var sent: string

    constructor ()
      ensures status == 200 && body == "" && wire == None && sent == ""
    {
      status, body, wire, sent := 200, "", None, "";
    }

    method WriteHeader(code: int)
      modifies this
      ensures status == code && body == old(body) && sent == old(sent)
      ensures wire == if old(wire) == None then Some(code) else old(wire)
    {
      status := code;
      if wire == None {
        wire := Some(code);
      }
    }

    method Write(bytes: string)
      modifies this
      ensures status == old(status) && body == old(body) + bytes && sent == old(sent) + bytes
      ensures wire == if old(wire) == None then Some(200) else old(wire)
    {
      body := body + bytes;
      if wire == None {
        wire := Some(200);
      }
      sent := sent + bytes;
    }

    /** A handler, as far as its response goes. */
    method Serve(calls: seq<Call>)
      requires status == 200 && body == "" && wire == None && sent == ""
      modifies this
      ensures status == LastStatus(calls) && body == Body(calls)
      ensures Response(if wire == None then 200 else wire.value, sent) == Sent(calls)
    {
      for i := 0 to |calls|
        invariant status == LastStatus(calls[..i]) && body == sent == Body(calls[..i])
        invariant wire == if i == 0 then None else Some(SentStatus(calls))
      {
        assert calls[..i + 1][..i] == calls[..i];
        match calls[i] {
          case Header(code) => WriteHeader(code);
          case Write(bytes) => Write(bytes);
        }
      }
      assert calls[..|calls|] == calls;
    }
  }

  /** The last of the first `n` calls that sets a status, or -1. */
  function LastHeader(calls: seq<Call>, n: nat): (i: int)
    requires n <= |calls|
    ensures -1 <= i < n && (i >= 0 ==> calls[i].Header?)
    ensures i < 0 && n > 0 ==> calls[0].Write?
  {
    if n == 0 then -1 else if calls[n - 1].Header? then n - 1 else LastHeader(calls, n - 1)
  }

  /** The status set last, if any is, is the one that went out. */
  predicate OneStatus(calls: seq<Call>) {
    var i := LastHeader(calls, |calls|);
    i < 0 || calls[i].code == if calls[0].Header? then calls[0].code else 200
  }

  lemma {:induction false} LastStatusIs(calls: seq<Call>, n: nat)
    requires n <= |calls|
    ensures var i := LastHeader(calls, n); LastStatus(calls[..n]) == if i < 0 then 200 else calls[i].code
  {
    if n > 0 {
      assert calls[..n][..n - 1] == calls[..n - 1];
      LastStatusIs(calls, n - 1);
    }
  }

  /** The recorder remembers the status that was sent exactly for handlers that set one. */
  lemma OneStatusIff(calls: seq<Call>)
    ensures OneStatus(calls) <==> LastStatus(calls) == Sent(calls).status
  {
    LastStatusIs(calls, |calls|);
    assert calls[..|calls|] == calls;
  }

  datatype Request = Request(user: string, key: string, route: string, body: string)

  function Received(req: Request): string {
    if |req.body| <= MAX_BODY then req.body else req.body[..MAX_BODY]
  }

  datatype Rec = Rec(route: string, digest: int, status: int, response: string)

  type Keys = map<(string, string), Rec>

  predicate Success(status: int) {
    200 <= status < 300
  }

  // What surrounds one request: whether its body can be read, the lookup works, what the handler does, and whether
  // the recording works.
  datatype Luck = Luck(readable: bool, lookup: bool, calls: seq<Call>, record: bool)

  // `digest` is SHA-256; `normal` is what a jsonb column gives back, None for what it does not take.
  datatype Setup = Setup(digest: string -> int, normal: string -> Option<string>)

  datatype Answer = Answer(status: int, body: string, ran: bool, replay: bool)

  predicate Runs(s: Setup, keys: Keys, req: Request, luck: Luck) {
    && req.user != "" && luck.readable && |req.key| <= MAX_KEY_LENGTH
    && (req.key != "" ==> luck.lookup && (req.user, req.key) !in keys)
  }

  predicate Succeeds(s: Setup, keys: Keys, req: Request, luck: Luck) {
    Runs(s, keys, req, luck) && Success(LastStatus(luck.calls))
  }

  predicate Records(s: Setup, keys: Keys, req: Request, luck: Luck) {
    Succeeds(s, keys, req, luck) && req.key != "" && luck.record && s.normal(Body(luck.calls)).Some?
  }

  /** The keys after one request. */
  function KeysAfter(s: Setup, keys: Keys, req: Request, luck: Luck): Keys {
    if Records(s, keys, req, luck)
    then keys[(req.user, req.key) := Rec(req.route, s.digest(Received(req)), LastStatus(luck.calls), s.normal(Body(luck.calls)).value)]
    else keys
  }

  /** The key is on record for another route or another body. */
  predicate UsedForAnother(s: Setup, keys: Keys, req: Request) {
    && (req.user, req.key) in keys
    && (keys[(req.user, req.key)].route != req.route || keys[(req.user, req.key)].digest != s.digest(Received(req)))
  }

  class Server {
    const s: Setup
    var keys: Keys

    constructor (s: Setup)
      ensures this.s == s && keys == map[]
    {
      this.s, keys := s, map[];
    }

    method Lookup(user: string, key: string, route: string, digest: int) returns (rec: Option<Rec>, conflict: bool)
      ensures rec.Some? <==> (user, key) in keys && keys[(user, key)].route == route && keys[(user, key)].digest == digest
      ensures rec.Some? ==> rec.value == keys[(user, key)]
      ensures conflict <==> (user, key) in keys && rec.None?
    {
      if (user, key) !in keys {
        return None, false;
      }
      var found := keys[(user, key)];
      if found.route != route || found.digest != digest {
        return None, true;
      }
      return Some(found), false;
    }

    /** ON CONFLICT DO NOTHING, into a column that takes only JSON. */
    method Record(user: string, key: string, route: string, digest: int, status: int, body: string, works: bool)
      modifies this
      ensures keys == if works && s.normal(body).Some? && (user, key) !in old(keys)
                      then old(keys)[(user, key) := Rec(route, digest, status, s.normal(body).value)] else old(keys)
    {
      var response := s.normal(body);
      if works && response.Some? && (user, key) !in keys {
        keys := keys[(user, key) := Rec(route, digest, status, response.value)];
      }
    }

    /** withIdempotency. */
    method Handle(req: Request, luck: Luck) returns (a: Answer)
      modifies this
      ensures keys == KeysAfter(s, old(keys), req, luck)
      ensures a.ran <==> Runs(s, old(keys), req, luck)
      ensures a.ran <==>
                && req.user != "" && luck.readable && |req.key| <= 255
                && (req.key != "" ==> luck.lookup && (req.user, req.key) !in old(keys))
      ensures a.ran ==> !a.replay && Response(a.status, a.body) == Sent(luck.calls)
      ensures !a.ran || req.key == "" || LastStatus(luck.calls) < 200 || LastStatus(luck.calls) > 299 ==> keys == old(keys)
      ensures a.ran && req.key != "" && 200 <= LastStatus(luck.calls) <= 299 && luck.record && s.normal(Body(luck.calls)).Some? ==>
                keys == old(keys)[(req.user, req.key) :=
                  Rec(req.route, s.digest(if |req.body| <= 65536 then req.body else req.body[..65536]),
                      LastStatus(luck.calls), s.normal(Body(luck.calls)).value)]
      ensures a.replay <==>
                && req.user != "" && luck.readable && 0 < |req.key| <= MAX_KEY_LENGTH && luck.lookup
                && (req.user, req.key) in old(keys)
                && old(keys)[(req.user, req.key)].route == req.route
                && old(keys)[(req.user, req.key)].digest == s.digest(Received(req))
      ensures a.replay ==> Answer(old(keys)[(req.user, req.key)].status, old(keys)[(req.user, req.key)].response, false, true) == a
      ensures !a.ran && !a.replay ==> a.status in {400, 403, 409, 500}
      ensures !a.ran && !a.replay && a.status == 403 <==> req.user == ""
      ensures !a.ran && !a.replay && a.status == 400 <==> req.user != "" && (!luck.readable || |req.key| > 255)
      ensures !a.ran && !a.replay && a.status == 500 <==>
                req.user != "" && luck.readable && 0 < |req.key| <= 255 && !luck.lookup
      ensures !a.ran && !a.replay && a.status == 409 <==>
                && req.user != "" && luck.readable && 0 < |req.key| <= MAX_KEY_LENGTH && luck.lookup
                && UsedForAnother(s, old(keys), req)
    {
      if req.user == "" {
        return Answer(403, "", false, false);
      }
      if !luck.readable || |req.key| > MAX_KEY_LENGTH {
        return Answer(400, "", false, false);
      }
      var digest := s.digest(Received(req));
      if req.key != "" {
        if !luck.lookup {
          return Answer(500, "", false, false);
        }
        var rec, conflict := Lookup(req.user, req.key, req.route, digest);
        if conflict {
          return Answer(409, "", false, false);
        }
        if rec.Some? {
          return Answer(rec.value.status, rec.value.response, false, true);
        }
      }
      var recorder := new Recorder();
      recorder.Serve(luck.calls);
      if req.key != "" && 200 <= recorder.status < 300 {
        Record(req.user, req.key, req.route, digest, recorder.status, recorder.body, luck.record);
      }
      return Answer(if recorder.wire == None then 200 else recorder.wire.value, recorder.sent, true, false);
    }

    method Sweep(old_: set<(string, string)>)
      modifies this
      ensures keys == old(keys) - old_
    {
      keys := keys - old_;
    }

    /** A server's life: requests and sweeps as they come.  It counts how often a handler succeeded under one key. */
    method Live(events: seq<Event>, k: (string, string)) returns (successes: nat)
      requires keys == map[]
      modifies this
      ensures keys == After(s, events) && successes == Successes(s, events, k)
    {
      successes := 0;
      for i := 0 to |events|
        invariant keys == After(s, events[..i]) && successes == Successes(s, events[..i], k)
      {
        assert events[..i + 1][..i] == events[..i];
        match events[i] {
          case Asked(req, luck) =>
            var a := Handle(req, luck);
            if (req.user, req.key) == k && a.ran && Success(LastStatus(luck.calls)) {
              successes := successes + 1;
            }
          case Swept(gone) => Sweep(gone);
        }
      }
      assert events[..|events|] == events;
    }
  }

  /* ---- any sequence of requests and sweeps ---- */

  datatype Event = Asked(req: Request, luck: Luck) | Swept(gone: set<(string, string)>)

  function After(s: Setup, events: seq<Event>): Keys {
    if events == [] then map[]
    else
      var before := After(s, events[..|events| - 1]);
      match events[|events| - 1]
      case Asked(req, luck) => KeysAfter(s, before, req, luck)
      case Swept(gone) => before - gone
  }

  function One(b: bool): nat {
    if b then 1 else 0
  }

  /** How often the handler has succeeded under a user's key. */
  function Successes(s: Setup, events: seq<Event>, k: (string, string)): nat {
    if events == [] then 0
    else
      var front := events[..|events| - 1];
      Successes(s, front, k)
      + match events[|events| - 1]
        case Asked(req, luck) => One((req.user, req.key) == k && Succeeds(s, After(s, front), req, luck))
        case Swept(_) => 0
  }

  /** How often a success was not recorded, or its record swept. */
  function Forgotten(s: Setup, events: seq<Event>, k: (string, string)): nat {
    if events == [] then 0
    else
      var front := events[..|events| - 1];
      Forgotten(s, front, k)
      + match events[|events| - 1]
        case Asked(req, luck) =>
          One((req.user, req.key) == k && Succeeds(s, After(s, front), req, luck) && !Records(s, After(s, front), req, luck))
        case Swept(gone) => One(k in gone && k in After(s, front))
  }

  /** Every success under a key is on record or has been forgotten; a first one is repeated only after being forgotten. */
  lemma {:induction false} SuccessesAccounted(s: Setup, events: seq<Event>, k: (string, string))
    requires k.1 != ""
    ensures Successes(s, events, k) == Forgotten(s, events, k) + One(k in After(s, events))
  {
    if events != [] {
      SuccessesAccounted(s, events[..|events| - 1], k);
    }
  }

  /** If nothing is forgotten, the handler succeeds at most once. */
  lemma AtMostOnce(s: Setup, events: seq<Event>, k: (string, string))
    requires k.1 != "" && Forgotten(s, events, k) == 0
    ensures Successes(s, events, k) <= 1
  {
    SuccessesAccounted(s, events, k);
  }

  ghost predicate NotSwept(events: seq<Event>, k: (string, string)) {
    forall e <- events :: e.Swept? ==> k !in e.gone
  }

  function AfterFrom(s: Setup, keys: Keys, events: seq<Event>): Keys {
    if events == [] then keys
    else
      var before := AfterFrom(s, keys, events[..|events| - 1]);
      match events[|events| - 1]
      case Asked(req, luck) => KeysAfter(s, before, req, luck)
      case Swept(gone) => before - gone
  }

  /** Until it is swept, a record stays as it was written, whatever else is asked. */
  lemma {:induction false} RecordStays(s: Setup, keys: Keys, events: seq<Event>, k: (string, string))
    requires k in keys && k.1 != "" && NotSwept(events, k)
    ensures k in AfterFrom(s, keys, events) && AfterFrom(s, keys, events)[k] == keys[k]
  {
    if events != [] {
      assert NotSwept(events[..|events| - 1], k);
      RecordStays(s, keys, events[..|events| - 1], k);
    }
  }

  /** What a request is answered when its key is on record and the lookup works. */
  function Replayed(keys: Keys, req: Request): Option<Response> {
    if (req.user, req.key) in keys
    then Some(Response(keys[(req.user, req.key)].status, keys[(req.user, req.key)].response)) else None
  }

  /**
    The same request again, any time after a recorded success: it does not run, and gets the recorded status and
    the recorded body, which is the first one as a jsonb column writes it.
  */
  lemma RetryGetsTheFirstAnswer(s: Setup, keys: Keys, req: Request, luck: Luck, between: seq<Event>, again: Luck)
    requires Records(s, keys, req, luck) && NotSwept(between, (req.user, req.key)) && again.readable && again.lookup
    ensures var then_ := AfterFrom(s, KeysAfter(s, keys, req, luck), between);
            && !Runs(s, then_, req, again) && KeysAfter(s, then_, req, again) == then_
            && (req.user, req.key) in then_
            && then_[(req.user, req.key)].route == req.route && then_[(req.user, req.key)].digest == s.digest(Received(req))
            && Replayed(then_, req) == Some(Response(LastStatus(luck.calls), s.normal(Body(luck.calls)).value))
  {
    RecordStays(s, KeysAfter(s, keys, req, luck), between, (req.user, req.key));
  }

  /* ---- whether a replay is the first answer over again ---- */

  /** What the response column, of type jsonb, gives back of a JSON text, however that ended. */
  ghost predicate KeepsJson(normal: string -> Option<string>) {
    forall v :: J.Tidy(v) ==>
      && normal(J.Print(v, J.COMPACT)) == Some(J.Print(v, J.SPACED))
      && normal(J.Print(v, J.COMPACT) + "\n") == Some(J.Print(v, J.SPACED))
  }

  /** And of any text: it never ends in a line break. */
  ghost predicate EndsNoLine(normal: string -> Option<string>) {
    forall t :: normal(t).Some? ==> !EndsInNewline(normal(t).value)
  }

  predicate EndsInNewline(t: string) {
    t != "" && t[|t| - 1] == '\n'
  }

  /** writeJSON: a status, and a value encoded with a line break after it. */
  function WriteJSON(code: int, encoded: string): seq<Call> {
    [Header(code), Write(encoded + "\n")]
  }

  lemma WriteJSONSends(code: int, encoded: string)
    ensures Sent(WriteJSON(code, encoded)) == Response(code, encoded + "\n") && OneStatus(WriteJSON(code, encoded))
  {
    var calls := WriteJSON(code, encoded);
    assert calls[..1] == [Header(code)] && calls[..1][..0] == [];
    assert Body(calls[..1]) == "";
  }

  /** No answer that a handler gave through writeJSON is ever replayed as it was sent, whatever it said. */
  lemma WriteJSONIsNeverReplayedAsSent(
    s: Setup, keys: Keys, req: Request, luck: Luck, between: seq<Event>, code: int, encoded: string)
    requires Records(s, keys, req, luck) && NotSwept(between, (req.user, req.key)) && EndsNoLine(s.normal)
    requires luck.calls == WriteJSON(code, encoded)
    ensures Replayed(AfterFrom(s, KeysAfter(s, keys, req, luck), between), req) != Some(Sent(luck.calls))
  {
    RecordStays(s, KeysAfter(s, keys, req, luck), between, (req.user, req.key));
    WriteJSONSends(code, encoded);
    assert EndsInNewline(Sent(luck.calls).body);
  }

  /**
    A handler that answers with a JSON value, with a line break after it or not, is replayed as it was sent exactly when
    there was none, the value has nothing to separate, and it set one status.
  */
  lemma ReplayIsTheFirstAnswerIff(
    s: Setup, keys: Keys, req: Request, luck: Luck, between: seq<Event>, v: J.Value, newline: bool)
    requires Records(s, keys, req, luck) && NotSwept(between, (req.user, req.key)) && KeepsJson(s.normal) && J.Tidy(v)
    requires Body(luck.calls) == J.Print(v, J.COMPACT) + if newline then "\n" else ""
    ensures Replayed(AfterFrom(s, KeysAfter(s, keys, req, luck), between), req) == Some(Sent(luck.calls))
            <==> !newline && J.Separators(v) == 0 && OneStatus(luck.calls)
  {
    RecordStays(s, KeysAfter(s, keys, req, luck), between, (req.user, req.key));
    OneStatusIff(luck.calls);
    J.PrintedAlikeIff(v);
    J.EndsInNoNewline(v, J.SPACED);
    assert J.Print(v, J.COMPACT) + "" == J.Print(v, J.COMPACT);
    assert s.normal(J.Print(v, J.COMPACT)) == Some(J.Print(v, J.SPACED));
    assert newline ==> EndsInNewline(Body(luck.calls));
  }

  /** What the caller of writeJSON is answered the next time: the same status, and the value as the column prints it. */
  lemma WriteJSONIsReplayedSpaced(s: Setup, keys: Keys, req: Request, luck: Luck, between: seq<Event>, code: int, v: J.Value)
    requires Records(s, keys, req, luck) && NotSwept(between, (req.user, req.key)) && KeepsJson(s.normal) && J.Tidy(v)
    requires luck.calls == WriteJSON(code, J.Print(v, J.COMPACT))
    ensures Replayed(AfterFrom(s, KeysAfter(s, keys, req, luck), between), req) == Some(Response(code, J.Print(v, J.SPACED)))
  {
    WriteJSONSends(code, J.Print(v, J.COMPACT));
    OneStatusIff(luck.calls);
    RecordStays(s, KeysAfter(s, keys, req, luck), between, (req.user, req.key));
    assert s.normal(J.Print(v, J.COMPACT) + "\n") == Some(J.Print(v, J.SPACED));
  }

  /** For one, the answer to resolving an attention item, {"status":"resolved"} with and without a blank. */
  lemma ResolvedForOne() returns (v: J.Value)
    ensures J.Tidy(v) && J.Separators(v) == 1
    ensures J.Print(v, J.COMPACT) == "{" + (J.Quote("status") + ":" + J.Quote("resolved")) + "}"
    ensures J.Print(v, J.SPACED) == "{" + (J.Quote("status") + ": " + J.Quote("resolved")) + "}"
  {
    v := J.Object(J.Member("status", J.Str("resolved"), J.NoMembers));
    Words();
    J.OneMember("status", "resolved", J.COMPACT);
    J.OneMember("status", "resolved", J.SPACED);
  }

  lemma Words()
    ensures J.Unescaped("status") && J.Unescaped("resolved")
  {
  }

  /** A request that does not run, or whose handler last set a status that is no success. */
  predicate Failed(s: Setup, keys: Keys, e: Event) {
    e.Asked? && (Runs(s, keys, e.req, e.luck) ==> LastStatus(e.luck.calls) < 200 || LastStatus(e.luck.calls) > 299)
  }

  /**
    Leaving a failed request out of the history changes nothing that comes after it; and asked again at once, in the same
    way, it runs if it did before.
  */
  lemma {:induction false} FailuresNeverBlock(s: Setup, before: seq<Event>, failed: Event, after: seq<Event>)
    requires Failed(s, After(s, before), failed)
    ensures After(s, before + [failed] + after) == After(s, before + after)
    ensures Runs(s, After(s, before + [failed]), failed.req, failed.luck) <==> Runs(s, After(s, before), failed.req, failed.luck)
  {
    assert (before + [failed])[..|before|] == before;
    if after == [] {
      assert before + [failed] + after == before + [failed];
      assert before + after == before;
    } else {
      var front := after[..|after| - 1];
      assert (before + [failed] + after)[..|before| + |after|] == before + [failed] + front;
      assert (before + after)[..|before| + |front|] == before + front;
      FailuresNeverBlock(s, before, failed, front);
    }
  }
}
