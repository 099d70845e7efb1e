/**
 * The request dispatcher (Server): drains the queue of client requests,
 * selects a handler by the first "::" field of each, and rewrites the
 * protocol lines it forwards (303 to 304, 315 to 316, 372 to 373); also
 * the close-once shutdown and the two debug-log formatters.
 *
 * Which sessions a handler's output reaches is specified by Route (the
 * outputToClients call the request leads to, if any) together with
 * Registry.Delivered (the writes that call makes).
 */
module Dispatcher {
  import opened Wrappers
  import opened JavaText
  import opened Identity
  import opened Requests
  import opened Registry
  import opened Configuration

  /** The reply to a request whose code the dispatcher does not know. */
  const InvalidFormat: string := "901::Invalid format"

  // ---------------------------------------------------------------------------
  // Message rewriters
  // ---------------------------------------------------------------------------

  /** c, fields[0], c, fields[1], ...: each field preceded by c. */
  function Interleave(c: string, fields: seq<string>): (r: seq<string>)
    ensures |r| == 2 * |fields|
    ensures forall k :: 0 <= k < |fields| ==> r[2 * k] == c && r[2 * k + 1] == fields[k]
  {
    if |fields| == 0 then []
    else Interleave(c, fields[..|fields| - 1]) + [c, fields[|fields| - 1]]
  }

  /** The 304 line: the gadget count is repeated before every gadget field. */
  function GadgetsReport(count: int, fields: seq<string>): string
  {
    Join(["304"] + Interleave(ShowInt(count), fields))
  }

  /** The 373 line: the group fields follow the code unchanged. */
  function GroupsReport(fields: seq<string>): string
  {
    Join(["373"] + fields)
  }

  /** The 316 line: a gadget and its new state. */
  function StateUpdate(gadgetID: string, newState: string): string
  {
    Join(["316", gadgetID, newState])
  }

  /** The 371 request requestGadgetGroups builds; it is never sent. */
  function GroupsRequest(sessionID: int): string
  {
    assert IsField("371");
    IdLine("371", sessionID)
  }

  /** A 304 line splits back into its code and the interleaved count and fields. */
  lemma GadgetsReportSplits(count: int, fields: seq<string>)
    requires forall k :: 0 <= k < |fields| ==> IsField(fields[k])
    requires |fields| == 0 || fields[|fields| - 1] != ""
    ensures Split(GadgetsReport(count, fields)) == ["304"] + Interleave(ShowInt(count), fields)
  {
    GadgetsReportJoinable(count, fields);
    SplitJoin(["304"] + Interleave(ShowInt(count), fields));
  }

  lemma GadgetsReportJoinable(count: int, fields: seq<string>)
    requires forall k :: 0 <= k < |fields| ==> IsField(fields[k])
    requires |fields| == 0 || fields[|fields| - 1] != ""
    ensures Joinable(["304"] + Interleave(ShowInt(count), fields))
  {
    ShowIntIsField(count);
    GadgetsCodeIsField();
    CodeThenInterleaveJoinable("304", ShowInt(count), fields);
  }

  lemma GadgetsCodeIsField()
    ensures IsField("304")
  {
    NoColonIsField("304");
  }

  lemma CodeThenInterleaveJoinable(code: string, c: string, fields: seq<string>)
    requires IsField(code) && IsField(c)
    requires forall k :: 0 <= k < |fields| ==> IsField(fields[k])
    requires |fields| == 0 || fields[|fields| - 1] != ""
    ensures Joinable([code] + Interleave(c, fields))
  {
    InterleaveFields(c, fields);
    ConsJoinable(code, Interleave(c, fields));
  }

  lemma InterleaveFields(c: string, fields: seq<string>)
    requires IsField(c) && forall k :: 0 <= k < |fields| ==> IsField(fields[k])
    ensures forall k :: 0 <= k < |Interleave(c, fields)| ==> IsField(Interleave(c, fields)[k])
    ensures |fields| > 0 ==> Interleave(c, fields)[2 * |fields| - 1] == fields[|fields| - 1]
  {
    var r := Interleave(c, fields);
    forall k | 0 <= k < |r|
      ensures IsField(r[k])
    {
      var j := k / 2;
      assert j < |fields|;
      if k == 2 * j {
        assert r[2 * j] == c;
      } else {
        assert k == 2 * j + 1 && r[2 * j + 1] == fields[j];
      }
    }
  }

  /** A 373 line splits back into its code and the forwarded fields. */
  lemma GroupsReportSplits(fields: seq<string>)
    requires Joinable(["373"] + fields)
    ensures Split(GroupsReport(fields)) == ["373"] + fields
  {
    SplitJoin(["373"] + fields);
  }

  /** A 316 line splits back into its code, gadget and state. */
  lemma StateUpdateSplits(gadgetID: string, newState: string)
    requires IsField(gadgetID) && IsField(newState) && newState != ""
    ensures Split(StateUpdate(gadgetID, newState)) == ["316", gadgetID, newState]
  {
    assert IsField("316");
    SplitJoin(["316", gadgetID, newState]);
  }

  // ---------------------------------------------------------------------------
  // Routing
  // ---------------------------------------------------------------------------

  /**
   * 302 (and 105, which falls through into it): the fetch goes to the
   * individual hub whose *session id* equals the issuer's hubID. A missing
   * field, a non-numeric id or an unknown issuer throws, and nothing is sent.
   */
  ghost function FetchRoute<S>(clients: map<S, Client>, sessionID: int, commands: seq<string>): Option<Output>
  {
    if |commands| < 2 then None
    else match ParseInt(commands[1])
      case None => None
      case Some(n) =>
        match SessionOf(clients, sessionID)
        case None => None
        case Some(origin) => Some(Output(clients[origin].hubID, true, true, false, FetchRequest(n)))
  }

  /** 303::t::n::f3..fk: the 304 report goes to user t alone. */
  function AllGadgetsRoute(commands: seq<string>): Option<Output>
  {
    if |commands| < 3 then None
    else match (ParseInt(commands[1]), ParseInt(commands[2]))
      case (Some(target), Some(count)) => Some(Output(target, false, true, false, GadgetsReport(count, commands[3..])))
      case _ => None
  }

  /** 315::g::s: the 316 update goes to every user of the issuer's hub. */
  function StateChangeRoute(sessionID: int, commands: seq<string>): Option<Output>
  {
    if |commands| < 3 then None
    else Some(Output(sessionID, false, false, false, StateUpdate(commands[1], commands[2])))
  }

  /** 372::t::f2..fk: the 373 report goes to user t alone. */
  function GroupsRoute(commands: seq<string>): Option<Output>
  {
    if |commands| < 2 then None
    else match ParseInt(commands[1])
      case None => None
      case Some(target) => Some(Output(target, false, true, false, GroupsReport(commands[2..])))
  }

  /** The codes the dispatcher has a case for. */
  predicate KnownCode(code: string)
  {
    code in {"105", "302", "303", "311", "315", "370", "372"}
  }

  /** The outputToClients call the split request with the issuer's session id leads to, if any. */
  ghost function RouteCommands<S>(clients: map<S, Client>, sessionID: int, commands: seq<string>): Option<Output>
  {
    if |commands| == 0 then None
    else if commands[0] == "105" || commands[0] == "302" then FetchRoute(clients, sessionID, commands)
    else if commands[0] == "303" then AllGadgetsRoute(commands)
    else if commands[0] == "311" || commands[0] == "370" then None
    else if commands[0] == "315" then StateChangeRoute(sessionID, commands)
    else if commands[0] == "372" then GroupsRoute(commands)
    else Some(Output(sessionID, false, true, false, InvalidFormat))
  }

  ghost function Route<S>(clients: map<S, Client>, req: ClientRequest): Option<Output>
  {
    RouteCommands(clients, req.sessionID, Split(req.request))
  }

  /** The writes of a sequence of requests, in order. */
  function Flatten<T>(chunks: seq<seq<T>>): seq<T>
  {
    if |chunks| == 0 then []
    else Flatten(chunks[..|chunks| - 1]) + chunks[|chunks| - 1]
  }

  /** The routes of a sequence of requests, in order. */
  ghost function Routes<S>(clients: map<S, Client>, reqs: seq<ClientRequest>): (r: seq<Option<Output>>)
    ensures |r| == |reqs|
  {
    seq(|reqs|, i requires 0 <= i < |reqs| => Route(clients, reqs[i]))
  }

  /** Each chunks[i] is what the call routes[i] writes. */
  ghost predicate AllDelivered<S>(chunks: seq<seq<(S, string)>>, clients: map<S, Client>, closed: set<S>, routes: seq<Option<Output>>)
    decreases |chunks|
  {
    if |chunks| == 0 then true
    else
      && |chunks| <= |routes|
      && AllDelivered(chunks[..|chunks| - 1], clients, closed, routes)
      && Delivered(chunks[|chunks| - 1], clients, closed, routes[|chunks| - 1])
  }

  /** AllDelivered read element by element. */
  lemma {:induction false} AllDeliveredAt<S>(chunks: seq<seq<(S, string)>>, clients: map<S, Client>, closed: set<S>, routes: seq<Option<Output>>)
    requires AllDelivered(chunks, clients, closed, routes)
    ensures |chunks| <= |routes|
    ensures forall i :: 0 <= i < |chunks| ==> Delivered(chunks[i], clients, closed, routes[i])
    decreases |chunks|
  {
    if |chunks| > 0 {
      var init := chunks[..|chunks| - 1];
      AllDeliveredAt(init, clients, closed, routes);
      assert forall i :: 0 <= i < |init| ==> chunks[i] == init[i];
    }
  }

  lemma DeliveredSnoc<S>(chunks: seq<seq<(S, string)>>, w: seq<(S, string)>, clients: map<S, Client>, closed: set<S>, routes: seq<Option<Output>>)
    requires |chunks| < |routes|
    requires AllDelivered(chunks, clients, closed, routes)
    requires Delivered(w, clients, closed, routes[|chunks|])
    ensures AllDelivered(chunks + [w], clients, closed, routes)
  {
    assert (chunks + [w])[..|chunks|] == chunks;
    assert (chunks + [w])[|chunks|] == w;
  }

  lemma FlattenSnoc<T>(prefix: seq<T>, chunks: seq<seq<T>>, w: seq<T>)
    ensures prefix + Flatten(chunks + [w]) == (prefix + Flatten(chunks)) + w
  {
    assert (chunks + [w])[..|chunks|] == chunks;
  }

  /** What processRequests promises, read element by element: request i of the queue made exactly the writes chunks[i]. */
  lemma ProcessedInOrder<S>(chunks: seq<seq<(S, string)>>, clients: map<S, Client>, closed: set<S>, reqs: seq<ClientRequest>)
    requires AllDelivered(chunks, clients, closed, Routes(clients, reqs))
    ensures |chunks| <= |reqs|
    ensures forall i :: 0 <= i < |chunks| ==> Delivered(chunks[i], clients, closed, Route(clients, reqs[i]))
  {
    AllDeliveredAt(chunks, clients, closed, Routes(clients, reqs));
  }

  /** A logout request is handled exactly as a 302 fetch with the same fields. */
  lemma LogoutFallsThrough<S>(clients: map<S, Client>, sessionID: int, rest: seq<string>)
    ensures RouteCommands(clients, sessionID, ["105"] + rest) == RouteCommands(clients, sessionID, ["302"] + rest)
  {
  }

  /** A line with an unknown code is answered individually to its issuer, and nothing else happens. */
  lemma UnknownCodeRepliesToOrigin<S>(clients: map<S, Client>, sessionID: int, code: string, rest: seq<string>)
    requires Joinable([code] + rest) && !KnownCode(code)
    ensures Route(clients, ClientRequest(sessionID, Join([code] + rest))) == Some(Output(sessionID, false, true, false, InvalidFormat))
  {
    SplitJoin([code] + rest);
  }

  /** 303::t::n::fields becomes the 304 report for user t. */
  lemma AllGadgetsRoundTrip<S>(clients: map<S, Client>, sessionID: int, target: int, count: int, fields: seq<string>)
    requires MinInt32 <= target <= MaxInt32 && MinInt32 <= count <= MaxInt32
    requires forall k :: 0 <= k < |fields| ==> IsField(fields[k])
    requires |fields| == 0 || fields[|fields| - 1] != ""
    ensures Route(clients, ClientRequest(sessionID, Join(["303", ShowInt(target), ShowInt(count)] + fields)))
            == Some(Output(target, false, true, false, GadgetsReport(count, fields)))
    ensures fields == [] ==> GadgetsReport(count, fields) == "304"
  {
    var all := ["303", ShowInt(target), ShowInt(count)] + fields;
    AllGadgetsLineSplits(target, count, fields);
    RouteOfCode303(clients, sessionID, all);
  }

  lemma AllGadgetsLineSplits(target: int, count: int, fields: seq<string>)
    requires MinInt32 <= target <= MaxInt32 && MinInt32 <= count <= MaxInt32
    requires forall k :: 0 <= k < |fields| ==> IsField(fields[k])
    requires |fields| == 0 || fields[|fields| - 1] != ""
    ensures var all := ["303", ShowInt(target), ShowInt(count)] + fields;
      Split(Join(all)) == all && ParseInt(all[1]) == Some(target) && ParseInt(all[2]) == Some(count) && all[3..] == fields
  {
    var all := ["303", ShowInt(target), ShowInt(count)] + fields;
    AllGadgetsLineJoinable(target, count, fields);
    SplitJoin(all);
    ParseShowInt(target);
    ParseShowInt(count);
    assert all[3..] == fields;
  }

  lemma AllGadgetsLineJoinable(target: int, count: int, fields: seq<string>)
    requires forall k :: 0 <= k < |fields| ==> IsField(fields[k])
    requires |fields| == 0 || fields[|fields| - 1] != ""
    ensures Joinable(["303", ShowInt(target), ShowInt(count)] + fields)
  {
    ShowIntIsField(target);
    ShowIntIsField(count);
    assert IsField("303");
    ConsJoinable(ShowInt(count), fields);
    ConsJoinable(ShowInt(target), [ShowInt(count)] + fields);
    ConsJoinable("303", [ShowInt(target)] + ([ShowInt(count)] + fields));
    assert ["303", ShowInt(target), ShowInt(count)] + fields == ["303"] + ([ShowInt(target)] + ([ShowInt(count)] + fields));
  }

  lemma RouteOfCode303<S>(clients: map<S, Client>, sessionID: int, commands: seq<string>)
    requires |commands| >= 1 && commands[0] == "303"
    ensures RouteCommands(clients, sessionID, commands) == AllGadgetsRoute(commands)
  {
  }

  /** 315::g::s (with any further fields) becomes exactly 316::g::s, broadcast from the issuer. */
  lemma StateChangeRoundTrip<S>(clients: map<S, Client>, sessionID: int, gadgetID: string, newState: string, extra: seq<string>)
    requires Joinable(["315", gadgetID, newState] + extra)
    ensures Route(clients, ClientRequest(sessionID, Join(["315", gadgetID, newState] + extra)))
            == Some(Output(sessionID, false, false, false, StateUpdate(gadgetID, newState)))
  {
    SplitJoin(["315", gadgetID, newState] + extra);
  }

  /** A 316 update reaches exactly the logged-in users of the issuer's hub. */
  lemma StateChangeReachesHubUsers<S>(clients: map<S, Client>, origin: S, gadgetID: string, newState: string, extra: seq<string>)
    requires UniqueIds(clients) && origin in clients
    requires Joinable(["315", gadgetID, newState] + extra)
    ensures var o := Route(clients, ClientRequest(clients[origin].sessionID, Join(["315", gadgetID, newState] + extra)));
            && o.Some?
            && forall s :: s in Recipients(clients, o.value) <==>
                 s in clients && clients[s].loggedIn && clients[s].kind.UserClient? && clients[s].hubID == clients[origin].hubID
  {
    StateChangeRoundTrip(clients, clients[origin].sessionID, gadgetID, newState, extra);
    BroadcastRecipients(clients, Output(clients[origin].sessionID, false, false, false, StateUpdate(gadgetID, newState)), origin);
  }

  /** 372::t::fields becomes 373::fields for user t: the tail after the target id is forwarded verbatim. */
  lemma GroupsForwardVerbatim<S>(clients: map<S, Client>, sessionID: int, target: int, fields: seq<string>)
    requires MinInt32 <= target <= MaxInt32
    requires Joinable(["372", ShowInt(target)] + fields)
    ensures Route(clients, ClientRequest(sessionID, Join(["372", ShowInt(target)] + fields)))
            == Some(Output(target, false, true, false, GroupsReport(fields)))
    ensures |fields| > 0 ==>
              && Join(["372", ShowInt(target)] + fields) == "372" + Delimiter + ShowInt(target) + Delimiter + Join(fields)
              && GroupsReport(fields) == "373" + Delimiter + Join(fields)
  {
    var all := ["372", ShowInt(target)] + fields;
    SplitJoin(all);
    ParseShowInt(target);
    assert all[2..] == fields;
    RouteOfCode372(clients, sessionID, all);
    if |fields| > 0 {
      GroupsTail(ShowInt(target), fields);
    }
  }

  lemma GroupsTail(target: string, fields: seq<string>)
    requires |fields| > 0
    ensures Join(["372", target] + fields) == "372" + Delimiter + target + Delimiter + Join(fields)
    ensures GroupsReport(fields) == "373" + Delimiter + Join(fields)
  {
    JoinPair("372", target, fields);
    JoinCons("373", fields);
  }

  lemma RouteOfCode372<S>(clients: map<S, Client>, sessionID: int, commands: seq<string>)
    requires |commands| >= 1 && commands[0] == "372"
    ensures RouteCommands(clients, sessionID, commands) == GroupsRoute(commands)
  {
  }

  /** The fetch a manual login queues is routed to the session whose id is the new user's hubID. */
  lemma FetchAfterLogin<S>(clients: map<S, Client>, session: S, id: int, hubID: int, nameID: string, admin: bool)
    requires UniqueIds(clients) && 1 <= id <= MaxInt32
    requires session in clients && clients[session] == Client(id, true, hubID, UserClient(nameID, admin))
    ensures Route(clients, ClientRequest(id, FetchRequest(id))) == Some(Output(hubID, true, true, false, FetchRequest(id)))
    ensures NoHubEntries(clients) ==> Recipients(clients, Output(hubID, true, true, false, FetchRequest(id))) == {}
  {
    ParseShowInt(id);
    assert SessionOf(clients, id) == Some(session);
    if NoHubEntries(clients) {
      HubOutputWithoutHubs(clients, Output(hubID, true, true, false, FetchRequest(id)));
    }
  }

  // ---------------------------------------------------------------------------
  // Debug log
  // ---------------------------------------------------------------------------

  function Spaces(n: nat): (r: string)
    ensures |r| == n && forall i :: 0 <= i < n ==> r[i] == ' '
  {
    if n == 0 then "" else Spaces(n - 1) + " "
  }

  /** The "%-30s" conversion: s, padded with spaces on the right up to width. */
  function PadRight(s: string, width: nat): (r: string)
    ensures |r| == if |s| < width then width else |s|
    ensures s <= r
    ensures forall i :: |s| <= i < |r| ==> r[i] == ' '
  {
    if |s| < width then s + Spaces(width - |s|) else s
  }

  /** head, then " " and each of rest in turn. */
  function Spaced(head: string, rest: seq<string>): (r: string)
    ensures head <= r
  {
    if |rest| == 0 then head
    else Spaced(head, rest[..|rest| - 1]) + " " + rest[|rest| - 1]
  }

  /** Appending the words one by one is the same as starting from a longer head. */
  lemma {:induction false} SpacedCons(head: string, x: string, rest: seq<string>)
    ensures Spaced(head, [x] + rest) == Spaced(head + " " + x, rest)
    decreases |rest|
  {
    if |rest| > 0 {
      var init := rest[..|rest| - 1];
      assert ([x] + rest)[..|rest|] == [x] + init;
      SpacedCons(head, x, init);
    }
  }

  /** "[%s]": the first item in brackets. */
  function Bracketed(item: string): (r: string)
    ensures |r| == |item| + 2
  {
    "[" + item + "]"
  }

  /** " (Thread %s)": what the thread formatter adds after the first item. */
  function ThreadTag(threadID: int): (r: string)
    ensures |r| == |ShowInt(threadID)| + 10
  {
    " (Thread " + ShowInt(threadID) + ")"
  }

  /** "[d0] d1 d2 ...", or "" without data. */
  function LogData(data: seq<string>): string
  {
    if |data| == 0 then "" else Spaced(Bracketed(data[0]), data[1..])
  }

  /** "[d0] (Thread t) d1 d2 ...", or "" without data. */
  function ThreadLogData(threadID: int, data: seq<string>): string
  {
    if |data| == 0 then "" else Spaced(Bracketed(data[0]) + ThreadTag(threadID), data[1..])
  }

  /** The printed line: tag and ":" padded to 30 characters, then the data, cut to 90 characters plus "[...]". */
  function FormatLog(tag: string, logData: string): (r: string)
    ensures 30 <= |r| <= 95
    ensures |tag| < 90 ==> tag + ":" <= r
    ensures |tag| < 30 ==> forall i :: |tag| + 1 <= i < 30 ==> r[i] == ' '
    ensures |tag| < 30 && |logData| <= 60 ==> r[30..] == logData
    ensures |tag| < 30 && |logData| > 60 ==> r[30..] == logData[..60] + "[...]"
    ensures |tag| >= 30 ==>
              r == if |tag| + 1 + |logData| > 90 then (tag + ":" + logData)[..90] + "[...]" else tag + ":" + logData
  {
    var line := PadRight(tag + ":", 30) + logData;
    if |line| > 90 then line[..90] + "[...]" else line
  }

  /** The words after the head do not depend on the head. */
  lemma {:induction false} SpacedHead(head: string, rest: seq<string>)
    ensures Spaced(head, rest) == head + Spaced("", rest)
    decreases |rest|
  {
    if |rest| > 0 {
      var init := rest[..|rest| - 1];
      SpacedHead(head, init);
      var x := Spaced("", init);
      assert (head + x) + " " + rest[|rest| - 1] == head + (x + " " + rest[|rest| - 1]);
    }
  }

  /**
   * The thread formatter prints the plain formatter's line with
   * " (Thread t)" inserted right after "[d0]"; without data both are empty.
   */
  lemma LogDataThreadTag(threadID: int, data: seq<string>)
    ensures |data| == 0 ==> ThreadLogData(threadID, data) == LogData(data) == ""
    ensures |data| > 0 ==>
              ThreadLogData(threadID, data) == Bracketed(data[0]) + ThreadTag(threadID) + LogData(data)[|data[0]| + 2..]
    ensures |ThreadLogData(threadID, data)| == if |data| == 0 then 0 else |LogData(data)| + 10 + |ShowInt(threadID)|
  {
    if |data| > 0 {
      InsertAfterHead(Bracketed(data[0]), ThreadTag(threadID), data[1..]);
    }
  }

  /** Spacing words after head + tag is spacing them after head, then inserting tag after head. */
  lemma InsertAfterHead(head: string, tag: string, rest: seq<string>)
    ensures Spaced(head + tag, rest) == head + tag + Spaced(head, rest)[|head|..]
    ensures |Spaced(head + tag, rest)| == |Spaced(head, rest)| + |tag|
  {
    SpacedHead(head + tag, rest);
    SpacedHead(head, rest);
    assert Spaced(head, rest)[|head|..] == Spaced("", rest);
  }

  /** The second item follows the bracketed first one after a single space. */
  lemma LogDataSecondItem(d0: string, d1: string, more: seq<string>)
    ensures LogData([d0, d1] + more) == Spaced("[" + d0 + "]" + " " + d1, more)
  {
    var head := "[" + d0 + "]";
    assert ([d0, d1] + more)[1..] == [d1] + more;
    assert ([d0, d1] + more)[0] == d0;
    SpacedCons(head, d1, more);
  }

  class Server<S(==)> {
    /** The registry; its queue is clientRequests. */
    const handler: ClientHandler<S>
    const settings: Settings
    var terminateServer: bool
    /** How many times the shutdown (stopping the mock hub and the web socket server) has run. */
    var shutdowns: nat

    ghost predicate Valid()
      reads handler`clients, handler.counter
    {
      handler.Valid()
    }

    constructor (handler: ClientHandler<S>, settings: Settings)
      requires handler.Valid()
      ensures Valid() && !terminateServer && shutdowns == 0
      ensures this.handler == handler && this.settings == settings
    {
      this.handler := handler;
      this.settings := settings;
      terminateServer := false;
      shutdowns := 0;
    }

    /** close: the first call sets terminateServer and shuts down; later calls change nothing. */
    method Close()
      modifies this`terminateServer, this`shutdowns
      ensures terminateServer
      ensures shutdowns == if old(terminateServer) then old(shutdowns) else old(shutdowns) + 1
    {
      if !terminateServer {
        terminateServer := true;
        shutdowns := shutdowns + 1;
      }
    }

    /** processRequests: each request taken from the queue, in order, makes exactly the writes its route says. */
    method ProcessRequests() returns (ghost chunks: seq<seq<(S, string)>>)
      requires Valid()
      modifies handler`outbox, handler.queue
      ensures Valid()
      ensures |chunks| <= |old(handler.queue.items)|
      ensures handler.queue.items == old(handler.queue.items)[|chunks|..]
      ensures terminateServer ==> chunks == []
      ensures !terminateServer ==> handler.queue.items == []
      ensures handler.outbox == old(handler.outbox) + Flatten(chunks)
      ensures AllDelivered(chunks, handler.clients, handler.closedSessions, Routes(handler.clients, old(handler.queue.items)))
    {
      ghost var pending := handler.queue.items;
      chunks := [];
      while !terminateServer && handler.queue.items != []
        invariant Valid()
        invariant |chunks| <= |pending|
        invariant handler.queue.items == pending[|chunks|..]
        invariant terminateServer ==> chunks == []
        invariant handler.outbox == old(handler.outbox) + Flatten(chunks)
        invariant AllDelivered(chunks, handler.clients, handler.closedSessions, Routes(handler.clients, pending))
        decreases |handler.queue.items|
      {
        assert pending[|chunks|..][1..] == pending[|chunks| + 1..];
        ghost var w;
        w := ProcessOne(pending, |chunks|);
        DeliveredSnoc(chunks, w, handler.clients, handler.closedSessions, Routes(handler.clients, pending));
        FlattenSnoc(old(handler.outbox), chunks, w);
        chunks := chunks + [w];
      }
    }

    /** One iteration of processRequests: take the oldest request (number k of pending) and dispatch it. */
    method ProcessOne(ghost pending: seq<ClientRequest>, ghost k: nat) returns (ghost w: seq<(S, string)>)
      requires Valid() && k < |pending| && handler.queue.items == pending[k..]
      modifies handler`outbox, handler.queue
      ensures handler.queue.items == old(handler.queue.items)[1..]
      ensures handler.outbox == old(handler.outbox) + w
      ensures Delivered(w, handler.clients, handler.closedSessions, Routes(handler.clients, pending)[k])
    {
      var clientRequest := handler.queue.Take();
      w := Dispatch(clientRequest);
    }

    /** The switch on the first field; a handler's exception ends the request with no further output. */
    method Dispatch(req: ClientRequest) returns (ghost w: seq<(S, string)>)
      requires Valid()
      modifies handler`outbox
      ensures handler.outbox == old(handler.outbox) + w
      ensures Delivered(w, handler.clients, handler.closedSessions, Route(handler.clients, req))
    {
      var commands := Split(req.request);
      var sessionID := req.sessionID;
      w := [];
      if |commands| == 0 {
        // commands[0] throws
        return;
      }
      var code := commands[0];
      if code == "105" || code == "302" {
        // clientLogout has an empty body and its case has no break
        w := RequestAllHubGadgets(commands, sessionID);
      } else if code == "303" {
        w := ReceiveAllHubGadgets(commands);
      } else if code == "311" {
        // requestGadgetStateChange has an empty body
      } else if code == "315" {
        w := ReceiveGadgetStateChange(commands, sessionID);
      } else if code == "370" {
        // requestGadgetGroups builds GroupsRequest(sessionID) and sends nothing
      } else if code == "372" {
        w := ReceiveGadgetGroups(commands);
      } else {
        w := handler.OutputToClients(sessionID, false, true, false, InvalidFormat);
      }
    }

    /** requestAllHubGadgets: forwards "302::" and the parsed id to the issuer's hubID. */
    method RequestAllHubGadgets(commands: seq<string>, issuingSessionID: int) returns (ghost w: seq<(S, string)>)
      requires Valid()
      modifies handler`outbox
      ensures handler.outbox == old(handler.outbox) + w
      ensures Delivered(w, handler.clients, handler.closedSessions, FetchRoute(handler.clients, issuingSessionID, commands))
    {
      w := [];
      if |commands| < 2 {
        return;
      }
      var clientSessionID := ParseInt(commands[1]);
      if clientSessionID.None? {
        return;
      }
      var forwardSessionId := FetchRequest(clientSessionID.value);
      var session := handler.GetSession(issuingSessionID);
      if session.None? {
        // getSession throws "No session match", so nothing is sent
        return;
      }
      var theClient := handler.clients[session.value];
      w := handler.OutputToClients(theClient.hubID, true, true, false, forwardSessionId);
    }

    /** The for-loop of receiveAllHubGadgets. */
    method BuildGadgetsReport(numberOfGadgets: int, commands: seq<string>) returns (msg: string)
      requires |commands| >= 3
      ensures msg == GadgetsReport(numberOfGadgets, commands[3..])
    {
      var c := ShowInt(numberOfGadgets);
      msg := "304";
      for command := 3 to |commands|
        invariant msg == Join(["304"] + Interleave(c, commands[3..command]))
      {
        ghost var prev := ["304"] + Interleave(c, commands[3..command]);
        assert commands[3..command + 1][..command - 3] == commands[3..command];
        assert ["304"] + Interleave(c, commands[3..command + 1]) == prev + [c] + [commands[command]];
        JoinSnoc(prev, c);
        JoinSnoc(prev + [c], commands[command]);
        msg := msg + "::" + c + "::" + commands[command];
      }
      assert commands[3..|commands|] == commands[3..];
    }

    /** receiveAllHubGadgets: 303::t::n::... becomes the 304 report, sent individually to t. */
    method ReceiveAllHubGadgets(commands: seq<string>) returns (ghost w: seq<(S, string)>)
      requires Valid()
      modifies handler`outbox
      ensures handler.outbox == old(handler.outbox) + w
      ensures Delivered(w, handler.clients, handler.closedSessions, AllGadgetsRoute(commands))
    {
      w := [];
      if |commands| < 2 {
        return;
      }
      var targetSessionID := ParseInt(commands[1]);
      if targetSessionID.None? || |commands| < 3 {
        return;
      }
      var numberOfGadgets := ParseInt(commands[2]);
      if numberOfGadgets.None? {
        return;
      }
      var forwardGadgetsMsg := BuildGadgetsReport(numberOfGadgets.value, commands);
      w := handler.OutputToClients(targetSessionID.value, false, true, false, forwardGadgetsMsg);
    }

    /** receiveGadgetStateChange: 315::g::s becomes 316::g::s, broadcast to the issuer's hub users. */
    method ReceiveGadgetStateChange(commands: seq<string>, issuingSessionID: int) returns (ghost w: seq<(S, string)>)
      requires Valid()
      modifies handler`outbox
      ensures handler.outbox == old(handler.outbox) + w
      ensures Delivered(w, handler.clients, handler.closedSessions, StateChangeRoute(issuingSessionID, commands))
    {
      w := [];
      if |commands| < 3 {
        return;
      }
      var forwardMsg := StateUpdate(commands[1], commands[2]);
      w := handler.OutputToClients(issuingSessionID, false, false, false, forwardMsg);
    }

    /** The for-loop of receiveGadgetGroups. */
    method BuildGroupsReport(commands: seq<string>) returns (msg: string)
      requires |commands| >= 2
      ensures msg == GroupsReport(commands[2..])
    {
      msg := "373";
      for command := 2 to |commands|
        invariant msg == Join(["373"] + commands[2..command])
      {
        assert ["373"] + commands[2..command + 1] == (["373"] + commands[2..command]) + [commands[command]];
        JoinSnoc(["373"] + commands[2..command], commands[command]);
        msg := msg + "::" + commands[command];
      }
      assert commands[2..|commands|] == commands[2..];
    }

    /** receiveGadgetGroups: 372::t::... becomes 373::..., sent individually to t. */
    method ReceiveGadgetGroups(commands: seq<string>) returns (ghost w: seq<(S, string)>)
      requires Valid()
      modifies handler`outbox
      ensures handler.outbox == old(handler.outbox) + w
      ensures Delivered(w, handler.clients, handler.closedSessions, GroupsRoute(commands))
    {
      w := [];
      if |commands| < 2 {
        return;
      }
      var targetSessionID := ParseInt(commands[1]);
      if targetSessionID.None? {
        return;
      }
      var forwardGroups := BuildGroupsReport(commands);
      w := handler.OutputToClients(targetSessionID.value, false, true, false, forwardGroups);
    }

    /** The "[d0] d1 d2 ..." accumulation of both debugLog variants, from a given head. */
    method BuildLogData(head: string, data: seq<string>) returns (logData: string)
      requires |data| > 0
      ensures logData == Spaced(head, data[1..])
    {
      logData := head;
      for i := 1 to |data|
        invariant logData == Spaced(head, data[1..i])
      {
        assert data[1..i + 1][..i - 1] == data[1..i];
        logData := logData + " " + data[i];
      }
      assert data[1..|data|] == data[1..];
    }

    /** debugLog(log, data...): the line printed in debug mode, nothing otherwise. */
    method DebugLog(log: string, data: seq<string>) returns (printed: Option<string>)
      ensures printed == if settings.debugMode then Some(FormatLog(log, LogData(data))) else None
    {
      if !settings.debugMode {
        return None;
      }
      var logData := "";
      if |data| > 0 {
        logData := BuildLogData(Bracketed(data[0]), data);
      }
      printed := Some(FormatLog(log, logData));
    }

    /** debugLog(log, threadID, data...): as DebugLog, with the thread tag after the first item. */
    method DebugLogThread(log: string, threadID: int, data: seq<string>) returns (printed: Option<string>)
      ensures printed == if settings.debugMode then Some(FormatLog(log, ThreadLogData(threadID, data))) else None
    {
      if !settings.debugMode {
        return None;
      }
      var logData := "";
      if |data| > 0 {
        logData := BuildLogData(Bracketed(data[0]) + ThreadTag(threadID), data);
      }
      printed := Some(FormatLog(log, logData));
    }
  }
}
