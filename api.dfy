/** The HTTP client: the typed operations of `authAPI`, `notesAPI` and
    `shareAPI`, the request each one sends, and the two interceptors of the
    shared client — bearer-token attachment and session teardown on a 401. */
module Api {
  import opened Wrappers
  import opened Text
  import opened Notes
  import opened Session

  datatype Method = Get | Post | Patch | Delete

  /** An opaque JSON object of string fields (credentials, sign-up data). */
  type Fields = map<string, string>

  datatype Body = NoBody | FormBody(fields: Fields) | NoteBody(draft: Draft)

  /** A request as the transport sees it, relative to the base URL. */
  datatype Request = Request(verb: Method, path: string, query: Query, body: Body)

  /** Every typed operation the client exposes. `GetNotes` called without an
      argument sends the empty parameter object. */
  datatype Op =
    | Login(credentials: Fields)
    | Signup(userData: Fields)
    | GetNotes(params: Query := map[])
    | GetNote(id: string)
    | CreateNote(note: Draft)
    | UpdateNote(id: string, note: Draft)
    | DeleteNote(id: string)
    | PinNote(id: string)
    | UnpinNote(id: string)
    | ArchiveNote(id: string)
    | UnarchiveNote(id: string)
    | CreateShareLink(noteId: string)
    | DeleteShareLink(noteId: string)
    | GetSharedNote(shareToken: string)
  {
    /** Every operation goes through the shared client except the shared-note
        fetch, which uses the bare transport. */
    predicate ViaPipeline()
    {
      !GetSharedNote?
    }
  }

  function NotePath(id: string): string
  {
    "/notes/" + id
  }

  function SharePath(noteId: string): string
  {
    "/s/note/" + noteId
  }

  /** The fixed method, path, parameters and body of each operation. Only the
      list operation carries query parameters; only create and update carry a
      note payload; only login and sign-up carry form fields. */
  function Build(op: Op): (r: Request)
    ensures r.query == (if op.GetNotes? then op.params else map[])
    ensures r.body.NoteBody? <==> op.CreateNote? || op.UpdateNote?
    ensures r.body.FormBody? <==> op.Login? || op.Signup?
    ensures r.verb == Get <==> op.GetNotes? || op.GetNote? || op.GetSharedNote?
  {
    match op
    case Login(c) => Request(Post, "/auth/login", map[], FormBody(c))
    case Signup(u) => Request(Post, "/auth/signup", map[], FormBody(u))
    case GetNotes(q) => Request(Get, "/notes", q, NoBody)
    case GetNote(id) => Request(Get, NotePath(id), map[], NoBody)
    case CreateNote(d) => Request(Post, "/notes", map[], NoteBody(d))
    case UpdateNote(id, d) => Request(Patch, NotePath(id), map[], NoteBody(d))
    case DeleteNote(id) => Request(Delete, NotePath(id), map[], NoBody)
    case PinNote(id) => Request(Post, NotePath(id) + "/pin", map[], NoBody)
    case UnpinNote(id) => Request(Post, NotePath(id) + "/unpin", map[], NoBody)
    case ArchiveNote(id) => Request(Post, NotePath(id) + "/archive", map[], NoBody)
    case UnarchiveNote(id) => Request(Post, NotePath(id) + "/unarchive", map[], NoBody)
    case CreateShareLink(id) => Request(Post, SharePath(id), map[], NoBody)
    case DeleteShareLink(id) => Request(Delete, SharePath(id), map[], NoBody)
    case GetSharedNote(t) => Request(Get, "/s/" + t, map[], NoBody)
  }

  /** The server's routing table for the same endpoints: which operation a
      request asks for. */
  function Recognize(r: Request): (op: Option<Op>)
  {
    var p := r.path;
    match r.verb
    case Get =>
      if p == "/notes" then Some(GetNotes(r.query))
      else if StartsWith(p, "/notes/") then Some(GetNote(p[7..]))
      else if StartsWith(p, "/s/") then Some(GetSharedNote(p[3..]))
      else None
    case Post =>
      if p == "/auth/login" && r.body.FormBody? then Some(Login(r.body.fields))
      else if p == "/auth/signup" && r.body.FormBody? then Some(Signup(r.body.fields))
      else if p == "/notes" && r.body.NoteBody? then Some(CreateNote(r.body.draft))
      else if StartsWith(p, "/notes/") then RecognizeNoteAction(p[7..])
      else if StartsWith(p, "/s/note/") then Some(CreateShareLink(p[8..]))
      else None
    case Patch =>
      if StartsWith(p, "/notes/") && r.body.NoteBody? then Some(UpdateNote(p[7..], r.body.draft)) else None
    case Delete =>
      if StartsWith(p, "/notes/") then Some(DeleteNote(p[7..]))
      else if StartsWith(p, "/s/note/") then Some(DeleteShareLink(p[8..]))
      else None
  }

  /** Routing of a POST to `/notes/<rest>`: `<id>/pin`, `<id>/unpin`,
      `<id>/archive` or `<id>/unarchive`. */
  function RecognizeNoteAction(rest: string): (op: Option<Op>)
  {
    if EndsWith(rest, "/pin") then Some(PinNote(rest[..|rest| - 4]))
    else if EndsWith(rest, "/unpin") then Some(UnpinNote(rest[..|rest| - 6]))
    else if EndsWith(rest, "/archive") then Some(ArchiveNote(rest[..|rest| - 8]))
    else if EndsWith(rest, "/unarchive") then Some(UnarchiveNote(rest[..|rest| - 10]))
    else None
  }

  /** Routing recovers every operation from the request it builds. */
  lemma BuildRecognize(op: Op)
    ensures Recognize(Build(op)) == Some(op)
  {
    match op
    case GetNote(id) => RecognizeNoteId(op, id);
    case UpdateNote(id, _) => RecognizeNoteId(op, id);
    case DeleteNote(id) => RecognizeNoteId(op, id);
    case PinNote(_) => RecognizeToggle(op);
    case UnpinNote(_) => RecognizeToggle(op);
    case ArchiveNote(_) => RecognizeToggle(op);
    case UnarchiveNote(_) => RecognizeToggle(op);
    case CreateShareLink(id) => RecognizeShare(op, id);
    case DeleteShareLink(id) => RecognizeShare(op, id);
    case GetSharedNote(t) => RecognizeShared(t);
    case _ =>
  }

  lemma RecognizeNoteId(op: Op, id: string)
    requires op == GetNote(id) || (op.UpdateNote? && op.id == id) || op == DeleteNote(id)
    ensures Recognize(Build(op)) == Some(op)
  {
  }

  /** A POST to `/notes/<id><action>` is routed by its action alone. */
  lemma RecognizeNotePost(id: string, action: string)
    requires |action| >= 4 && action[0] == '/'
    ensures var p := NotePath(id) + action;
      Recognize(Request(Post, p, map[], NoBody)) == RecognizeNoteAction(id + action)
  {
    var p := NotePath(id) + action;
    assert p[..7] == "/notes/" && p[7..] == id + action;
    assert p[1] == 'n';
    assert p != "/auth/login" && p != "/auth/signup" && p != "/notes";
  }

  /** `<id><action>` ends with `action`, and what precedes it is `id`. */
  lemma SplitAction(id: string, action: string)
    ensures var rest := id + action;
      EndsWith(rest, action) && rest[..|rest| - |action|] == id
  {
  }

  /** A string whose character at offset `k` of the suffix position differs
      from `suffix[k]` does not end with `suffix`. */
  lemma NotEndsWith(s: string, suffix: string, k: nat)
    requires k < |suffix| <= |s| && s[|s| - |suffix| + k] != suffix[k]
    ensures !EndsWith(s, suffix)
  {
  }

  /** Each toggle operation is routed back to itself. */
  lemma RecognizeToggle(op: Op)
    requires op.PinNote? || op.UnpinNote? || op.ArchiveNote? || op.UnarchiveNote?
    ensures Recognize(Build(op)) == Some(op)
  {
    match op
    case PinNote(id) =>
      RecognizeNotePost(id, "/pin");
      RoutePin(id);
    case UnpinNote(id) =>
      RecognizeNotePost(id, "/unpin");
      RouteUnpin(id);
    case ArchiveNote(id) =>
      RecognizeNotePost(id, "/archive");
      RouteArchive(id);
    case UnarchiveNote(id) =>
      RecognizeNotePost(id, "/unarchive");
      RouteUnarchive(id);
  }

  lemma RoutePin(id: string)
    ensures RecognizeNoteAction(id + "/pin") == Some(PinNote(id))
  {
  }

  lemma RouteUnpin(id: string)
    ensures RecognizeNoteAction(id + "/unpin") == Some(UnpinNote(id))
  {
    SplitAction(id, "/unpin");
    NotEndsWith(id + "/unpin", "/pin", 0);
  }

  lemma RouteArchive(id: string)
    ensures RecognizeNoteAction(id + "/archive") == Some(ArchiveNote(id))
  {
    SplitAction(id, "/archive");
    var rest := id + "/archive";
    NotEndsWith(rest, "/pin", 3);
    NotEndsWith(rest, "/unpin", 5);
  }

  lemma RouteUnarchive(id: string)
    ensures RecognizeNoteAction(id + "/unarchive") == Some(UnarchiveNote(id))
  {
    SplitAction(id, "/unarchive");
    var rest := id + "/unarchive";
    NotEndsWith(rest, "/pin", 3);
    NotEndsWith(rest, "/unpin", 5);
    NotEndsWith(rest, "/archive", 0);
  }

  lemma RecognizeShare(op: Op, id: string)
    requires op == CreateShareLink(id) || op == DeleteShareLink(id)
    ensures Recognize(Build(op)) == Some(op)
  {
    var p := Build(op).path;
    assert p[..8] == "/s/note/" && p[8..] == id;
    assert p[1] == 's';
    assert !StartsWith(p, "/notes/") && p != "/auth/login" && p != "/auth/signup" && p != "/notes";
  }

  lemma RecognizeShared(t: string)
    ensures Recognize(Build(GetSharedNote(t))) == Some(GetSharedNote(t))
  {
    var p := Build(GetSharedNote(t)).path;
    assert p[..3] == "/s/" && p[3..] == t;
    assert p[1] == 's';
    assert p != "/notes" && !StartsWith(p, "/notes/");
  }

  /** Two different operations never send the same request. */
  lemma BuildInjective(a: Op, b: Op)
    requires Build(a) == Build(b)
    ensures a == b
  {
    BuildRecognize(a);
    BuildRecognize(b);
  }

  // ---------------------------------------------------------------------
  // The interceptors

  /** How a call settles when it fails: either no response at all (network
      failure), or a response with a status and, possibly, the server's nested
      error message. */
  datatype HttpError = NoResponse | ErrorResponse(status: int, message: Option<string>)
  {
    predicate IsUnauthorized()
    {
      ErrorResponse? && status == 401
    }
  }

  /** The request interceptor: the Authorization header it sets, if any, from
      the stored token. */
  function Authorization(token: Option<string>): (h: Option<string>)
    ensures h.Some? <==> IsTruthy(token)
    ensures h.Some? ==> StartsWith(h.value, "Bearer ")
  {
    if IsTruthy(token) then Some("Bearer " + token.value) else None
  }

  /** Reading a header back as a bearer credential: the scheme name "Bearer",
      one space, and a non-empty token. */
  function BearerCredential(h: string): Option<string>
  {
    if StartsWith(h, "Bearer ") && |h| > 7 then Some(h[7..]) else None
  }

  /** The header carries the stored token and nothing else: reading it back
      gives the token exactly when the token is truthy. */
  lemma AuthorizationCarriesToken(token: Option<string>)
    ensures match Authorization(token)
      case Some(h) => BearerCredential(h) == token
      case None => !IsTruthy(token)
  {
  }

  /** What reached the transport: the request and its Authorization header. */
  datatype Wire = Wire(request: Request, authorization: Option<string>)

  /** One call as the client performs it: the stored token after the call and
      the wire request. A pipeline call carries the header built from the
      token, and a 401 answer clears the token; the bare shared-note fetch
      carries no header and leaves the token alone. */
  function Step(token: Option<string>, op: Op, error: Option<HttpError>): (r: (Option<string>, Wire))
    ensures r.1.request == Build(op)
    ensures r.1.authorization.Some? <==> op.ViaPipeline() && IsTruthy(token)
    ensures r.0 == token || r.0 == None
    ensures r.0 == None <==> token == None || (op.ViaPipeline() && error.Some? && error.value.IsUnauthorized())
  {
    if op.ViaPipeline() then
      var after := if error.Some? && error.value.IsUnauthorized() then None else token;
      (after, Wire(Build(op), Authorization(token)))
    else
      (token, Wire(Build(op), None))
  }

  /** A call together with how it failed, if it did. */
  datatype Call = Call(op: Op, error: Option<HttpError>)

  /** The stored token after a series of calls with no login in between. */
  function TokenAfter(token: Option<string>, calls: seq<Call>): (r: Option<string>)
    ensures r == token || r == None
    decreases calls
  {
    if calls == [] then token else TokenAfter(Step(token, calls[0].op, calls[0].error).0, calls[1..])
  }

  /** The wire requests of a series of calls with no login in between. */
  function Trace(token: Option<string>, calls: seq<Call>): (r: seq<Wire>)
    ensures |r| == |calls|
    ensures forall j :: 0 <= j < |r| ==> r[j].request == Build(calls[j].op)
    decreases calls
  {
    if calls == [] then []
    else
      var s := Step(token, calls[0].op, calls[0].error);
      [s.1] + Trace(s.0, calls[1..])
  }

  /** With no token stored, no call carries credentials. */
  lemma {:induction false} NoTokenNoCredentials(calls: seq<Call>)
    ensures forall j :: 0 <= j < |calls| ==> Trace(None, calls)[j].authorization == None
  {
    if calls != [] {
      NoTokenNoCredentials(calls[1..]);
      var t := Trace(None, calls);
      forall j | 1 <= j < |calls| ensures t[j].authorization == None {
        assert t[j] == Trace(None, calls[1..])[j - 1];
      }
    }
  }

  /** After a pipeline call is answered with 401, no later call carries an
      Authorization header until a token is stored again. */
  lemma {:induction false} SilentAfterUnauthorized(token: Option<string>, calls: seq<Call>, k: nat)
    requires k < |calls|
    requires calls[k].op.ViaPipeline() && calls[k].error.Some? && calls[k].error.value.IsUnauthorized()
    ensures forall j :: k < j < |calls| ==> Trace(token, calls)[j].authorization == None
    ensures TokenAfter(token, calls) == None
    decreases calls
  {
    var s := Step(token, calls[0].op, calls[0].error);
    var t := Trace(token, calls);
    assert t == [s.1] + Trace(s.0, calls[1..]);
    if k == 0 {
      NoTokenNoCredentials(calls[1..]);
    } else {
      SilentAfterUnauthorized(s.0, calls[1..], k - 1);
    }
    forall j | k < j < |calls| ensures t[j].authorization == None {
      assert t[j] == Trace(s.0, calls[1..])[j - 1];
    }
  }

  // ---------------------------------------------------------------------
  // The client object

  /** The shared axios instance: it reads the token from `storage` and records
      every request it puts on the wire, in order. */
  class Client {
    const storage: Storage
    var sent: seq<Wire>

    constructor (storage: Storage)
      ensures this.storage == storage && sent == []
    {
      this.storage := storage;
      sent := [];
    }

    /** The request interceptor: attach `Bearer <token>` when a truthy token
        is stored. */
    method Authorize(request: Request) returns (w: Wire)
      ensures w.request == request
      ensures w.authorization.Some? <==> IsTruthy(storage.token)
      ensures IsTruthy(storage.token) ==> w.authorization == Some("Bearer " + storage.token.value)
    {
      var token := storage.token;
      if token.Some? && token.value != "" {
        w := Wire(request, Some("Bearer " + token.value));
      } else {
        w := Wire(request, None);
      }
    }

    /** The response interceptor: successes pass through, every failure is
        still rejected to the caller, and a 401 removes the stored token. */
    method Settle<T>(outcome: Result<T, HttpError>) returns (r: Result<T, HttpError>)
      modifies storage
      ensures r == outcome
      ensures storage.token == if outcome.Failure? && outcome.error.IsUnauthorized() then None else old(storage.token)
    {
      if outcome.Failure? && outcome.error.IsUnauthorized() {
        storage.token := None;
      }
      r := outcome;
    }

    /** Performs `op`; `outcome` is how the server answered. Pipeline calls go
        through both interceptors; the shared-note fetch goes out bare. */
    method Perform<T>(op: Op, outcome: Result<T, HttpError>) returns (r: Result<T, HttpError>)
      modifies this, storage
      ensures r == outcome
      ensures var s := Step(old(storage.token), op, ErrorOf(outcome));
        storage.token == s.0 && sent == old(sent) + [s.1]
    {
      if op.ViaPipeline() {
        var w := Authorize(Build(op));
        sent := sent + [w];
        r := Settle(outcome);
      } else {
        sent := sent + [Wire(Build(op), None)];
        r := outcome;
      }
    }
  }

  /** The failure an outcome carries, if any. */
  function ErrorOf<T>(outcome: Result<T, HttpError>): (e: Option<HttpError>)
    ensures e.Some? <==> outcome.Failure?
    ensures e.Some? ==> e.value == outcome.error
  {
    if outcome.Failure? then Some(outcome.error) else None
  }
}
