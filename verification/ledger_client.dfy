/**
 * The ledger client (`frontend/src/services/ledgerClient.js`): query result
 * extraction, command submission, the single-sub-command builders and the
 * Authorization header. The axios instance is the `post` function from the
 * request it is given to what it resolved or rejected with.
 */
module LedgerClient {
  import opened Wrappers
  import opened Js
  import opened Errors
  import Text
  import Http

  const ApplicationId: string := "prediction-markets"

  /** The client: base URL, the token as given, and the Authorization default header. */
  datatype Client = Client(baseUrl: string, token: Option<string>, authorization: Option<string>)

  /** `token ? \`Bearer ${token}\` : (no header)`: only a non-empty token yields a header. */
  function BearerHeader(token: Option<string>): (h: Option<string>)
    ensures h.Some? <==> token.Some? && token.value != ""
    ensures h.Some? ==> h.value == "Bearer " + token.value
  {
    if token.Some? && token.value != "" then Some("Bearer " + token.value) else None
  }

  /**
   * `new LedgerClient(baseUrl, token)`: an omitted base URL is the build's
   * `VITE_LEDGER_URL`, or the development participant when that is unset or
   * empty.
   */
  function New(baseUrl: Option<string>, token: Option<string>, viteLedgerUrl: Option<string>): (c: Client)
    ensures baseUrl.Some? ==> c.baseUrl == baseUrl.value
    ensures baseUrl.None? && (viteLedgerUrl.None? || viteLedgerUrl.value == "") ==> c.baseUrl == Http.DefaultLedgerUrl
    ensures baseUrl.None? && viteLedgerUrl.Some? && viteLedgerUrl.value != "" ==> c.baseUrl == viteLedgerUrl.value
    ensures c.token == token
    ensures c.authorization == BearerHeader(token)
  {
    Client(baseUrl.GetOr(Http.LedgerUrl(viteLedgerUrl)), token, BearerHeader(token))
  }

  /** `setToken(token)`: the header follows the new token, and is cleared (null) without one. */
  function SetToken(c: Client, token: Option<string>): (r: Client)
    ensures r.baseUrl == c.baseUrl && r.token == token
    ensures r.authorization == BearerHeader(token)
  {
    c.(token := token, authorization := BearerHeader(token))
  }

  /** A request handed to axios: path relative to the base URL, Authorization header, JSON body. */
  datatype Posted = Posted(path: string, authorization: Option<string>, body: Value)

  /** What axios settled to: the response data, or the rejection (non-2xx statuses reject). */
  datatype Settled = Data(data: Value) | Rejected(error: HttpError)

  type Post = Posted -> Settled

  function Strings(xs: seq<string>): (vs: seq<Value>)
    ensures |vs| == |xs| && forall i :: 0 <= i < |xs| ==> vs[i] == Str(xs[i])
  {
    seq(|xs|, i requires 0 <= i < |xs| => Str(xs[i]))
  }

  /** The request `query` sends; an omitted filter is `{}`. */
  function QueryRequest(c: Client, templateIds: seq<string>, filter: Value): Posted {
    Posted("/v1/query", c.authorization,
      Obj([("templateIds", Arr(Strings(templateIds))), ("query", if filter.Undefined? then Obj([]) else filter)]))
  }

  /** `response.data.result || []`; reading `result` of null data throws. */
  function ResultOf(data: Value): (r: Result<Value, HttpError>)
    ensures r.Failure? <==> data.Undefined? || data.Null?
    ensures r.Success? && Truthy(Prop(data, "result").value) ==> r.value == Prop(data, "result").value
    ensures r.Success? && !Truthy(Prop(data, "result").value) ==> r.value == Arr([])
  {
    match Prop(data, "result")
    case Failure(msg) => Failure(HttpError(None, Some(msg), None))
    case Success(result) => Success(Or(result, Arr([])))
  }

  /**
   * `query(templateIds, query)`: posts once; a rejection is rethrown
   * unchanged; otherwise the `result` field of the data, or `[]` when that is
   * absent or falsy.
   */
  function Query(c: Client, templateIds: seq<string>, filter: Value, post: Post): (r: Result<Value, HttpError>)
    ensures post(QueryRequest(c, templateIds, filter)).Rejected? ==>
      r == Failure(post(QueryRequest(c, templateIds, filter)).error)
    ensures post(QueryRequest(c, templateIds, filter)).Data? ==>
      r == ResultOf(post(QueryRequest(c, templateIds, filter)).data)
  {
    match post(QueryRequest(c, templateIds, filter))
    case Rejected(e) => Failure(e)
    case Data(data) => ResultOf(data)
  }

  /** A reply without a `result` field gives the empty list; one with a non-empty list gives that list. */
  lemma QueryResultExtraction(c: Client, templateIds: seq<string>, filter: Value, post: Post, items: seq<Value>)
    ensures post(QueryRequest(c, templateIds, filter)) == Data(Obj([])) ==>
      Query(c, templateIds, filter, post) == Success(Arr([]))
    ensures post(QueryRequest(c, templateIds, filter)) == Data(Obj([("result", Arr(items))])) ==>
      Query(c, templateIds, filter, post) == Success(Arr(items))
  {
  }

  /**
   * `submitCommand(commands)`: posts `{commands}` with the argument
   * unchanged and returns the response data as it came; a rejection is
   * rethrown unchanged.
   */
  function SubmitCommand(c: Client, commands: Value, post: Post): (r: Result<Value, HttpError>)
    ensures var sent := post(Posted("/v1/command", c.authorization, Obj([("commands", commands)])));
      && (sent.Data? ==> r == Success(sent.data))
      && (sent.Rejected? ==> r == Failure(sent.error))
  {
    match post(Posted("/v1/command", c.authorization, Obj([("commands", commands)])))
    case Rejected(e) => Failure(e)
    case Data(data) => Success(data)
  }

  /** One entry of a command's `list`. */
  datatype SubCommand =
    | CreateCommand(templateId: string, payload: Value)
    | ExerciseCommand(templateId: string, contractId: string, choice: string, argument: Value)

  datatype Command = Command(party: string, applicationId: string, commandId: string, list: seq<SubCommand>)

  function SubCommandValue(s: SubCommand): Value {
    match s
    case CreateCommand(t, p) => Obj([("templateId", Str(t)), ("payload", p)])
    case ExerciseCommand(t, cid, ch, arg) =>
      Obj([("templateId", Str(t)), ("contractId", Str(cid)), ("choice", Str(ch)), ("argument", arg)])
  }

  /** The JSON object a command is posted as. */
  function CommandValue(cmd: Command): Value {
    Obj([("party", Str(cmd.party)), ("applicationId", Str(cmd.applicationId)), ("commandId", Str(cmd.commandId)),
         ("list", Arr(seq(|cmd.list|, i requires 0 <= i < |cmd.list| => SubCommandValue(cmd.list[i]))))])
  }

  /** `${kind}-${Date.now()}-${Math.random()}` with the clock reading and the rendered random number as inputs. */
  function CommandId(kind: string, now: int, random: string): string {
    kind + "-" + Text.IntToString(now) + "-" + random
  }

  /** The command `create(templateId, payload, party)` submits. */
  function CreateCommandFor(templateId: string, payload: Value, party: string, now: int, random: string): (cmd: Command)
    ensures cmd.party == party && cmd.applicationId == "prediction-markets"
    ensures |cmd.commandId| >= 7 && cmd.commandId[..7] == "create-"
    ensures cmd.list == [CreateCommand(templateId, payload)]
  {
    Command(party, ApplicationId, CommandId("create", now, random), [CreateCommand(templateId, payload)])
  }

  /** The command `exercise(templateId, contractId, choice, argument, party)` submits. */
  function ExerciseCommandFor(templateId: string, contractId: string, choice: string, argument: Value, party: string,
                              now: int, random: string): (cmd: Command)
    ensures cmd.party == party && cmd.applicationId == "prediction-markets"
    ensures |cmd.commandId| >= 9 && cmd.commandId[..9] == "exercise-"
    ensures cmd.list == [ExerciseCommand(templateId, contractId, choice, argument)]
  {
    Command(party, ApplicationId, CommandId("exercise", now, random), [ExerciseCommand(templateId, contractId, choice, argument)])
  }

  /** `create(...)`: one post of the built command to `/v1/command`; the ledger's data or rejection comes back unchanged. */
  function Create(c: Client, templateId: string, payload: Value, party: string, now: int, random: string, post: Post): (r: Result<Value, HttpError>)
    ensures var cmd := CreateCommandFor(templateId, payload, party, now, random);
      var sent := post(Posted("/v1/command", c.authorization, Obj([("commands", CommandValue(cmd))])));
      && (sent.Data? ==> r == Success(sent.data))
      && (sent.Rejected? ==> r == Failure(sent.error))
  {
    SubmitCommand(c, CommandValue(CreateCommandFor(templateId, payload, party, now, random)), post)
  }

  /** `exercise(...)`: one post of the built command to `/v1/command`; the ledger's data or rejection comes back unchanged. */
  function Exercise(c: Client, templateId: string, contractId: string, choice: string, argument: Value, party: string,
                    now: int, random: string, post: Post): (r: Result<Value, HttpError>)
    ensures var cmd := ExerciseCommandFor(templateId, contractId, choice, argument, party, now, random);
      var sent := post(Posted("/v1/command", c.authorization, Obj([("commands", CommandValue(cmd))])));
      && (sent.Data? ==> r == Success(sent.data))
      && (sent.Rejected? ==> r == Failure(sent.error))
  {
    SubmitCommand(c, CommandValue(ExerciseCommandFor(templateId, contractId, choice, argument, party, now, random)), post)
  }

  /**
   * The posted JSON reads back as the command: `party`, `applicationId`,
   * `commandId` and a `list` with one object per entry, a create entry
   * carrying `templateId` and `payload`, an exercise entry `templateId`,
   * `contractId`, `choice` and `argument`.
   */
  lemma CommandValueReadsBack(cmd: Command)
    ensures var fs := CommandValue(cmd).fields;
      && Lookup(fs, "party") == Str(cmd.party)
      && Lookup(fs, "applicationId") == Str(cmd.applicationId)
      && Lookup(fs, "commandId") == Str(cmd.commandId)
      && Lookup(fs, "list").Arr? && |Lookup(fs, "list").items| == |cmd.list|
      && forall i :: 0 <= i < |cmd.list| ==> Lookup(fs, "list").items[i] == SubCommandValue(cmd.list[i])
    ensures forall i :: 0 <= i < |cmd.list| && cmd.list[i].CreateCommand? ==>
      var gs := SubCommandValue(cmd.list[i]).fields;
      Lookup(gs, "templateId") == Str(cmd.list[i].templateId) && Lookup(gs, "payload") == cmd.list[i].payload
    ensures forall i :: 0 <= i < |cmd.list| && cmd.list[i].ExerciseCommand? ==>
      var gs := SubCommandValue(cmd.list[i]).fields;
      && Lookup(gs, "templateId") == Str(cmd.list[i].templateId)
      && Lookup(gs, "contractId") == Str(cmd.list[i].contractId)
      && Lookup(gs, "choice") == Str(cmd.list[i].choice)
      && Lookup(gs, "argument") == cmd.list[i].argument
  {
    var fs := CommandValue(cmd).fields;
    Js.LookupAt(fs, "party", 0);
    Js.LookupAt(fs, "applicationId", 1);
    Js.LookupAt(fs, "commandId", 2);
    Js.LookupAt(fs, "list", 3);
    forall i | 0 <= i < |cmd.list|
      ensures var gs := SubCommandValue(cmd.list[i]).fields;
        cmd.list[i].CreateCommand? ==>
          Lookup(gs, "templateId") == Str(cmd.list[i].templateId) && Lookup(gs, "payload") == cmd.list[i].payload
      ensures var gs := SubCommandValue(cmd.list[i]).fields;
        cmd.list[i].ExerciseCommand? ==>
          && Lookup(gs, "templateId") == Str(cmd.list[i].templateId)
          && Lookup(gs, "contractId") == Str(cmd.list[i].contractId)
          && Lookup(gs, "choice") == Str(cmd.list[i].choice)
          && Lookup(gs, "argument") == cmd.list[i].argument
    {
      var gs := SubCommandValue(cmd.list[i]).fields;
      if cmd.list[i].CreateCommand? {
        Js.LookupAt(gs, "templateId", 0);
        Js.LookupAt(gs, "payload", 1);
      } else {
        Js.LookupAt(gs, "templateId", 0);
        Js.LookupAt(gs, "contractId", 1);
        Js.LookupAt(gs, "choice", 2);
        Js.LookupAt(gs, "argument", 3);
      }
    }
  }

  /**
   * Command ids tell submissions apart: for non-negative clock readings and
   * random renderings without `-` (such as `0.123`), equal ids of the same
   * kind come from equal clock readings and equal random parts.
   */
  lemma CommandIdInjective(kind: string, now: nat, random: string, now': nat, random': string)
    requires '-' !in random && '-' !in random'
    requires CommandId(kind, now, random) == CommandId(kind, now', random')
    ensures now == now' && random == random'
  {
    var a := Text.NatToString(now);
    var a' := Text.NatToString(now');
    Text.NatToStringRoundTrip(now);
    Text.NatToStringRoundTrip(now');
    assert '-' !in a by {
      forall i | 0 <= i < |a| ensures a[i] != '-' { assert Text.IsDigit(a[i]); }
    }
    assert '-' !in a' by {
      forall i | 0 <= i < |a'| ensures a'[i] != '-' { assert Text.IsDigit(a'[i]); }
    }
    var s := CommandId(kind, now, random);
    assert s == kind + "-" + a + "-" + random;
    assert s[|kind| + 1..] == a + ['-'] + random;
    assert CommandId(kind, now', random')[|kind| + 1..] == a' + ['-'] + random';
    Text.SeparatorUnique(a, random, a', random', '-');
    Text.NatToStringInjective(now, now');
  }

  /** A create and an exercise never share a command id. */
  lemma CreateAndExerciseIdsDiffer(now: int, random: string, now': int, random': string)
    ensures CommandId("create", now, random) != CommandId("exercise", now', random')
  {
    assert CommandId("create", now, random)[0] == 'c';
    assert CommandId("exercise", now', random')[0] == 'e';
  }

  /** The Authorization header follows the token: `Bearer <token>` with one, none after `setToken(null)`. */
  lemma AuthorizationFollowsToken(c: Client, t: string)
    requires t != ""
    ensures New(Some(c.baseUrl), Some(t), None).authorization == Some("Bearer " + t)
    ensures New(Some(c.baseUrl), None, None).authorization == None
    ensures New(Some(c.baseUrl), Some(""), None).authorization == None
    ensures SetToken(c, Some(t)).authorization == Some("Bearer " + t)
    ensures SetToken(SetToken(c, Some(t)), None).authorization == None
  {
  }
}
