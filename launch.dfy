/** Choosing how to start the tool server, and the steps of connecting to it. */
module Launch {
  import opened Wrappers
  import opened Strings
  import opened Catalog

  const BadScriptMessage: string := "Server script must be a .py or .js file"

  /** The parameters of the stdio transport: the command, its arguments and no extra environment. */
  datatype ServerParams = ServerParams(command: string, args: seq<string>, env: Option<map<string, string>>)

  /** The suffix of the script path selects `python` or `node`; anything else raises `ValueError`. */
  function ServerParameters(path: string): (r: Result<ServerParams, string>)
    ensures r.Success? <==> EndsWith(path, ".py") || EndsWith(path, ".js")
    ensures EndsWith(path, ".py") ==> r == Success(ServerParams("python", [path], None))
    ensures EndsWith(path, ".js") ==> r == Success(ServerParams("node", [path], None))
    ensures r.Failure? ==> r.error == BadScriptMessage
  {
    var isPython := EndsWith(path, ".py");
    var isJs := EndsWith(path, ".js");
    if !(isPython || isJs) then Failure(BadScriptMessage)
    else
      assert isJs ==> path[|path| - 2] == 'j';
      Success(ServerParams(if isPython then "python" else "node", [path], None))
  }

  /** What connecting does, in order. */
  datatype Effect = Spawn(params: ServerParams) | Initialize | ListTools

  datatype ConnectError = BadScript(message: string) | HandshakeFailed(reason: string) | CatalogFailed(reason: string)

  /** The result (the tool names announced on success) and the remote steps taken. */
  datatype Connection = Connection(result: Result<seq<string>, ConnectError>, effects: seq<Effect>)

  /**
   * `connect_to_server`: classify the path, start the server, initialize the session and list
   * its tools. `initialize` and `listTools` are what the server answers.
   */
  function Connect(path: string, initialize: Outcome<string>, listTools: Result<seq<ToolDescriptor>, string>): (c: Connection)
    ensures c.effects == [] <==> !(EndsWith(path, ".py") || EndsWith(path, ".js"))
    ensures c.effects == [] ==> c.result == Failure(BadScript(BadScriptMessage))
    ensures c.effects != [] ==> c.effects[0] == Spawn(ServerParameters(path).value)
    ensures c.effects != [] ==> c.effects <= [Spawn(ServerParameters(path).value), Initialize, ListTools]
    ensures c.effects != [] && initialize.Fail? ==>
      && c.effects == [Spawn(ServerParameters(path).value), Initialize]
      && c.result == Failure(HandshakeFailed(initialize.error))
    ensures c.effects != [] && initialize.Pass? ==>
      c.effects == [Spawn(ServerParameters(path).value), Initialize, ListTools]
    ensures c.effects != [] && initialize.Pass? && listTools.Failure? ==>
      c.result == Failure(CatalogFailed(listTools.error))
    ensures c.result.Success? <==> c.effects != [] && initialize.Pass? && listTools.Success?
    ensures c.result.Success? ==> c.result.value == Names(listTools.value) && |c.effects| == 3
  {
    match ServerParameters(path)
    case Failure(message) => Connection(Failure(BadScript(message)), [])
    case Success(params) =>
      match initialize
      case Fail(reason) => Connection(Failure(HandshakeFailed(reason)), [Spawn(params), Initialize])
      case Pass =>
        var effects := [Spawn(params), Initialize, ListTools];
        match listTools
        case Failure(reason) => Connection(Failure(CatalogFailed(reason)), effects)
        case Success(tools) => Connection(Success(Names(tools)), effects)
  }
}
