/**
 * The session registry (ClientHandler): the map from transport sessions to
 * their current identity, admission up to the client limit, the login of a
 * session's first line, and the addressing of outgoing lines.
 *
 * The transport is reduced to what the registry sees of it: a session is an
 * opaque key of type S, "write" appends (session, line) to the outbox, and
 * a session the registry has closed is in closedSessions (session.isOpen()
 * is false for it, so later writes to it are dropped).
 */
module Registry {
  import opened Wrappers
  import opened JavaText
  import opened Identity
  import opened Requests

  /** The alias the login confirmation carries while hubs cannot log in yet. */
  const HubAlias: string := "My haaouse"

  /** The exception message for a login line that is not 101, 103 or 120. */
  const InvalidLoginFormat: string := "Invalid login format"

  /** What the credential store answers a manual login: the user's hub and admin flag, or the message of its exception. */
  datatype AuthResult = Granted(hubID: int, admin: bool) | Denied(reason: string)

  /** The effect a session's login line has on the registry. */
  datatype LoginOutcome =
    | Rejected(reason: string)
    | Promoted(hubID: int, nameID: string, admin: bool)
    | Ignored

  /** The arguments of one outputToClients call. */
  datatype Output = Output(sessionID: int, toHub: bool, onlyToIndividual: bool, onlyToAdmin: bool, msg: string)

  /** The message of the ArrayIndexOutOfBoundsException thrown by commands[index]. */
  function IndexOutOfBounds(index: int, length: int): string
  {
    "Index " + ShowInt(index) + " out of bounds for length " + ShowInt(length)
  }

  /** The 102 reply to a successful manual login. */
  function ManualConfirmation(nameID: string, admin: bool, alias: string, key: string): string
  {
    Join(["102", nameID, ShowBool(admin), alias, key])
  }

  /** String.format("%s::%s", code, id): a code and a printed id, which split back apart. */
  function IdLine(code: string, id: int): (r: string)
    requires IsField(code)
    ensures Split(r) == [code, ShowInt(id)]
  {
    ShowIntIsField(id);
    SplitJoin([code, ShowInt(id)]);
    Join([code, ShowInt(id)])
  }

  /** The request a manual login queues on behalf of the new user. */
  function FetchRequest(sessionID: int): string
  {
    assert IsField("302");
    IdLine("302", sessionID)
  }

  /** The 101 handler: commands[1] is the name, commands[2] the password; key is the newly generated session key. */
  function ManualLogin(commands: seq<string>, key: string, auth: (string, string, string) -> AuthResult): LoginOutcome
  {
    if |commands| < 2 then Rejected(IndexOutOfBounds(1, |commands|))
    else if |commands| < 3 then Rejected(IndexOutOfBounds(2, |commands|))
    else match auth(commands[1], commands[2], key)
      case Denied(reason) => Rejected(reason)
      case Granted(hubID, admin) => Promoted(hubID, commands[1], admin)
  }

  /** clientLogin: the first field selects the login kind; automatic (103) and hub (120) logins are empty stubs. */
  function Login(line: string, key: string, auth: (string, string, string) -> AuthResult): LoginOutcome
  {
    var commands := Split(line);
    if |commands| == 0 then Rejected(IndexOutOfBounds(0, 0))
    else if commands[0] == "101" then ManualLogin(commands, key, auth)
    else if commands[0] == "103" || commands[0] == "120" then Ignored
    else Rejected(InvalidLoginFormat)
  }

  /** A well-formed manual login line is decided by the credential store alone. */
  lemma LoginOfManualLine(nameID: string, password: string, key: string, auth: (string, string, string) -> AuthResult)
    requires IsField(nameID) && IsField(password) && password != ""
    ensures Login(Join(["101", nameID, password]), key, auth) ==
              match auth(nameID, password, key)
              case Denied(reason) => Rejected(reason)
              case Granted(hubID, admin) => Promoted(hubID, nameID, admin)
  {
    assert IsField("101");
    SplitJoin(["101", nameID, password]);
  }

  /** Automatic (103) and hub (120) login lines change nothing, whatever they carry. */
  lemma LoginOfStubCode(code: string, rest: seq<string>, key: string, auth: (string, string, string) -> AuthResult)
    requires Joinable([code] + rest)
    requires code == "103" || code == "120"
    ensures Login(Join([code] + rest), key, auth) == Ignored
  {
    SplitJoin([code] + rest);
  }

  /** A first line whose first field is no login code ends the session with that complaint. */
  lemma LoginOfOtherCode(code: string, rest: seq<string>, key: string, auth: (string, string, string) -> AuthResult)
    requires Joinable([code] + rest)
    requires code != "101" && code != "103" && code != "120"
    ensures Login(Join([code] + rest), key, auth) == Rejected(InvalidLoginFormat)
  {
    SplitJoin([code] + rest);
  }

  // ---------------------------------------------------------------------------
  // Addressing
  // ---------------------------------------------------------------------------

  /** Session ids are distinct across the registry. */
  ghost predicate UniqueIds<S>(clients: map<S, Client>)
  {
    forall s, t :: s in clients && t in clients && s != t ==> clients[s].sessionID != clients[t].sessionID
  }

  /** getSession(sessionID): the session whose client has that id, if any. */
  ghost function SessionOf<S>(clients: map<S, Client>, sessionID: int): (r: Option<S>)
    ensures r.Some? ==> r.value in clients && clients[r.value].sessionID == sessionID
    ensures r.None? <==> forall s :: s in clients ==> clients[s].sessionID != sessionID
  {
    if exists s :: s in clients && clients[s].sessionID == sessionID then
      Some(var s :| s in clients && clients[s].sessionID == sessionID; s)
    else None
  }

  /** The test an individually addressed client must pass. */
  predicate IndividualTarget(c: Client, toHub: bool, onlyToAdmin: bool)
  {
    c.loggedIn && ((toHub && c.kind.HubClient?) || (!toHub && c.kind.UserClient? && (!onlyToAdmin || c.kind.admin)))
  }

  /** The test every client must pass to receive a broadcast to the users of hub hubID. */
  predicate BroadcastTarget(c: Client, hubID: int, onlyToAdmin: bool)
  {
    c.loggedIn && c.hubID == hubID && c.kind.UserClient? && (!onlyToAdmin || c.kind.admin)
  }

  /** The sessions an outputToClients call addresses, before closed sessions drop out. */
  ghost function Recipients<S>(clients: map<S, Client>, o: Output): set<S>
  {
    match SessionOf(clients, o.sessionID)
    case None => {}
    case Some(t) =>
      if o.onlyToIndividual then
        (if IndividualTarget(clients[t], o.toHub, o.onlyToAdmin) then {t} else {})
      else HubUsers(clients, clients[t].hubID, o.onlyToAdmin)
  }

  /** The logged-in users of hub hubID, only its admins if onlyToAdmin. */
  ghost function HubUsers<S>(clients: map<S, Client>, hubID: int, onlyToAdmin: bool): set<S>
  {
    set s | s in clients && BroadcastTarget(clients[s], hubID, onlyToAdmin)
  }

  /** The sessions the writes w go to. */
  function SessionSet<S>(w: seq<(S, string)>): set<S>
  {
    if |w| == 0 then {} else SessionSet(w[..|w| - 1]) + {w[|w| - 1].0}
  }

  lemma {:induction false} SessionSetMembers<S>(w: seq<(S, string)>)
    ensures forall s :: s in SessionSet(w) <==> exists i :: 0 <= i < |w| && w[i].0 == s
  {
    if |w| > 0 {
      var init := w[..|w| - 1];
      SessionSetMembers(init);
      assert forall i :: 0 <= i < |init| ==> w[i] == init[i];
    }
  }

  /** w writes msg exactly once to each of targets and to nothing else. */
  ghost predicate IsDelivery<S>(w: seq<(S, string)>, targets: set<S>, msg: string)
  {
    && (forall i :: 0 <= i < |w| ==> w[i].1 == msg)
    && (forall i, j :: 0 <= i < j < |w| ==> w[i].0 != w[j].0)
    && SessionSet(w) == targets
  }

  /** IsDelivery spelled out: the written sessions are exactly the targets, each written once, always with msg. */
  lemma DeliveryMeans<S>(w: seq<(S, string)>, targets: set<S>, msg: string)
    requires IsDelivery(w, targets, msg)
    ensures forall i :: 0 <= i < |w| ==> w[i].1 == msg && w[i].0 in targets
    ensures forall t :: t in targets ==> exists i :: 0 <= i < |w| && w[i].0 == t
    ensures forall t :: t in targets ==> |set i | 0 <= i < |w| && w[i].0 == t| == 1
    ensures |w| == |targets|
  {
    SessionSetMembers(w);
    forall t | t in targets
      ensures |set i | 0 <= i < |w| && w[i].0 == t| == 1
    {
      var i :| 0 <= i < |w| && w[i].0 == t;
      assert (set j | 0 <= j < |w| && w[j].0 == t) == {i};
    }
    DistinctSessionsCount(w);
  }

  /** Writes to distinct sessions go to as many sessions as there are writes. */
  lemma {:induction false} DistinctSessionsCount<S>(w: seq<(S, string)>)
    requires forall i, j :: 0 <= i < j < |w| ==> w[i].0 != w[j].0
    ensures |SessionSet(w)| == |w|
  {
    if |w| > 0 {
      var init := w[..|w| - 1];
      DistinctSessionsCount(init);
      SessionSetMembers(init);
      assert w[|w| - 1].0 !in SessionSet(init);
    }
  }

  /** The writes w are what the call o (or no call at all) produces. */
  ghost predicate Delivered<S>(w: seq<(S, string)>, clients: map<S, Client>, closed: set<S>, o: Option<Output>)
  {
    match o
    case None => w == []
    case Some(out) => IsDelivery(w, Recipients(clients, out) - closed, out.msg)
  }

  /** An individual call addresses at most one session, and only a logged-in one of the requested kind. */
  lemma IndividualRecipient<S>(clients: map<S, Client>, o: Output, t: S)
    requires o.onlyToIndividual && t in Recipients(clients, o)
    ensures Recipients(clients, o) == {t}
    ensures t in clients && clients[t].sessionID == o.sessionID && clients[t].loggedIn
    ensures o.toHub ==> clients[t].kind.HubClient?
    ensures !o.toHub ==> clients[t].kind.UserClient? && (o.onlyToAdmin ==> clients[t].kind.admin)
  {
  }

  /** A broadcast never reaches a hub or a client that has not logged in, and only users of the origin's hub. */
  lemma BroadcastRecipients<S>(clients: map<S, Client>, o: Output, origin: S)
    requires UniqueIds(clients)
    requires !o.onlyToIndividual && origin in clients && clients[origin].sessionID == o.sessionID
    ensures forall s :: s in Recipients(clients, o) <==>
              s in clients && clients[s].loggedIn && clients[s].kind.UserClient?
              && clients[s].hubID == clients[origin].hubID && (o.onlyToAdmin ==> clients[s].kind.admin)
  {
    assert SessionOf(clients, o.sessionID) == Some(origin);
  }

  /** No entry is a hub: hub login is a stub, so no operation of the registry ever stores one. */
  ghost predicate NoHubEntries<S>(clients: map<S, Client>)
  {
    forall s :: s in clients ==> !clients[s].kind.HubClient?
  }

  /** While no hub has logged in, output addressed to a hub reaches no session. */
  lemma HubOutputWithoutHubs<S>(clients: map<S, Client>, o: Output)
    requires NoHubEntries(clients) && o.onlyToIndividual && o.toHub
    ensures Recipients(clients, o) == {}
  {
  }

  /** The write a writeToClient call makes: none when the session is closed. */
  function WriteTo<S>(closed: set<S>, session: S, msg: string): seq<(S, string)>
  {
    if session in closed then [] else [(session, msg)]
  }

  /** The largest registry size admission allows: a new client is admitted while size <= clientLimit. */
  function Capacity(clientLimit: int): nat
  {
    if clientLimit + 1 < 0 then 0 else clientLimit + 1
  }

  class ClientHandler<S(==)> {
    /** connectedClients */
    var clients: map<S, Client>
    /** The sessions the registry has closed. */
    var closedSessions: set<S>
    /** Every line written to a session, in order. */
    var outbox: seq<(S, string)>
    const clientLimit: int
    /** Server.clientRequests, shared with the dispatcher. */
    const queue: RequestQueue
    /** Client.sessionCounter */
    const counter: SessionCounter

    ghost predicate Valid()
      reads this`clients, counter
    {
      && counter.Valid()
      && |clients| <= Capacity(clientLimit)
      && (forall s :: s in clients ==> 1 <= clients[s].sessionID <= counter.last && WellFormed(clients[s]))
      && UniqueIds(clients)
    }

    /** launchWebSocketServer's clientLimit, with the server's queue and the shared counter. */
    constructor (clientLimit: int, queue: RequestQueue, counter: SessionCounter)
      requires counter.Valid()
      ensures Valid()
      ensures clients == map[] && closedSessions == {} && outbox == []
      ensures this.clientLimit == clientLimit && this.queue == queue && this.counter == counter
    {
      clients := map[];
      closedSessions := {};
      outbox := [];
      this.clientLimit := clientLimit;
      this.queue := queue;
      this.counter := counter;
    }

    /** Nothing the registry owns has changed. */
    twostate predicate Untouched()
      reads this, queue, counter
    {
      && clients == old(clients) && closedSessions == old(closedSessions) && outbox == old(outbox)
      && queue.items == old(queue.items) && counter.last == old(counter.last)
    }

    /** The registry state after the session's login line had the given outcome. */
    twostate predicate LoginApplied(session: S, outcome: LoginOutcome, key: string)
      reads this, queue, counter
    {
      match outcome
      case Rejected(reason) =>
        && clients == old(clients) - {session}
        && closedSessions == old(closedSessions) + {session}
        && outbox == old(outbox) + WriteTo(old(closedSessions), session, "901::" + reason)
        && queue.items == old(queue.items)
        && counter.last == old(counter.last)
      case Promoted(hubID, nameID, admin) =>
        && counter.last == old(counter.last) + 1
        && clients == old(clients)[session := Client(counter.last, true, hubID, UserClient(nameID, admin))]
        && closedSessions == old(closedSessions)
        && outbox == old(outbox) + WriteTo(old(closedSessions), session, ManualConfirmation(nameID, admin, HubAlias, key))
        && queue.items == old(queue.items) + [ClientRequest(counter.last, FetchRequest(counter.last))]
      case Ignored =>
        Untouched()
    }

    /** addClient: admits a new not-logged-in client while the registry holds at most clientLimit entries. */
    method AddClient(session: S)
      requires Valid()
      modifies this`clients, this`closedSessions, counter
      ensures Valid()
      ensures old(|clients|) <= clientLimit ==>
                && counter.last == old(counter.last) + 1
                && clients == old(clients)[session := Client(counter.last, false, NoHub, BaseClient)]
                && closedSessions == old(closedSessions)
                && (forall s :: s in old(clients) ==> old(clients)[s].sessionID < counter.last)
      ensures old(|clients|) > clientLimit ==>
                && clients == old(clients) && counter.last == old(counter.last)
                && closedSessions == old(closedSessions) + {session}
      ensures NoHubEntries(old(clients)) ==> NoHubEntries(clients)
    {
      if |clients| <= clientLimit {
        var newClient := counter.NewClient();
        clients := clients[session := newClient];
      } else {
        closedSessions := closedSessions + {session};
      }
    }

    /** removeClient: closes the session and drops its entry; a second call changes nothing more. */
    method RemoveClient(session: S)
      requires Valid()
      modifies this`clients, this`closedSessions
      ensures Valid()
      ensures clients == old(clients) - {session}
      ensures closedSessions == old(closedSessions) + {session}
      ensures NoHubEntries(old(clients)) ==> NoHubEntries(clients)
    {
      if session !in closedSessions {
        closedSessions := closedSessions + {session};
      }
      clients := clients - {session};
    }

    /** addClientRequest: a logged-in session's line is queued as it is; any other known session's line is a login. */
    method AddClientRequest(session: S, line: string, key: string, auth: (string, string, string) -> AuthResult)
      requires Valid()
      modifies this, queue, counter
      ensures Valid()
      ensures session !in old(clients) ==> Untouched()
      ensures session in old(clients) && old(clients[session]).loggedIn ==>
                && queue.items == old(queue.items) + [ClientRequest(old(clients[session]).sessionID, line)]
                && clients == old(clients) && closedSessions == old(closedSessions) && outbox == old(outbox)
                && counter.last == old(counter.last)
      ensures session in old(clients) && !old(clients[session]).loggedIn ==>
                LoginApplied(session, Login(line, key, auth), key)
      ensures NoHubEntries(old(clients)) ==> NoHubEntries(clients)
    {
      if session !in clients {
        // connectedClients.get(session) is null: the exception is swallowed
        return;
      }
      if clients[session].loggedIn {
        queue.Put(ClientRequest(clients[session].sessionID, line));
      } else {
        ClientLogin(session, line, key, auth);
      }
    }

    /** clientLogin: a failed login writes "901::" and the exception message to the session and removes it. */
    method ClientLogin(session: S, line: string, key: string, auth: (string, string, string) -> AuthResult)
      requires Valid() && session in clients
      modifies this, queue, counter
      ensures Valid()
      ensures LoginApplied(session, Login(line, key, auth), key)
    {
      var commands := Split(line);
      var failure: Option<string> := None;
      if |commands| == 0 {
        failure := Some(IndexOutOfBounds(0, 0));
      } else if commands[0] == "101" {
        failure := ManualUserLogin(session, commands, key, auth);
      } else if commands[0] == "103" || commands[0] == "120" {
        // automaticUserLogin and hubLogin have empty bodies
      } else {
        failure := Some(InvalidLoginFormat);
      }
      if failure.Some? {
        WriteToClient(session, "901::" + failure.value);
        RemoveClient(session);
      }
    }

    /** manualUserLogin: on success the entry under the same session becomes a logged-in user. */
    method ManualUserLogin(session: S, commands: seq<string>, key: string, auth: (string, string, string) -> AuthResult)
      returns (failure: Option<string>)
      requires Valid() && session in clients
      modifies this`clients, this`outbox, queue, counter
      ensures Valid()
      ensures ManualLogin(commands, key, auth).Rejected? ==>
                failure == Some(ManualLogin(commands, key, auth).reason) && Untouched()
      ensures ManualLogin(commands, key, auth).Promoted? ==>
                failure == None && LoginApplied(session, ManualLogin(commands, key, auth), key)
    {
      if |commands| < 2 {
        return Some(IndexOutOfBounds(1, |commands|));
      }
      if |commands| < 3 {
        return Some(IndexOutOfBounds(2, |commands|));
      }
      var nameID := commands[1];
      var pwd := commands[2];
      var result := auth(nameID, pwd, key);
      if result.Denied? {
        return Some(result.reason);
      }
      var validClient := counter.NewUser(result.hubID, nameID, result.admin);
      clients := clients[session := validClient];
      WriteToClient(session, ManualConfirmation(nameID, result.admin, HubAlias, key));
      queue.Put(ClientRequest(validClient.sessionID, FetchRequest(validClient.sessionID)));
      failure := None;
    }

    /** getSession: the first session found whose client has the id. */
    method GetSession(sessionID: int) returns (found: Option<S>)
      requires Valid()
      ensures found == SessionOf(clients, sessionID)
    {
      var keys := clients.Keys;
      while keys != {}
        invariant keys <= clients.Keys
        invariant forall s :: s in clients && s !in keys ==> clients[s].sessionID != sessionID
        decreases keys
      {
        var s :| s in keys;
        if clients[s].sessionID == sessionID {
          return Some(s);
        }
        keys := keys - {s};
      }
      return None;
    }

    /** getSessionID: -1 for an empty registry, otherwise the id of the entry the iteration yields first. */
    method GetSessionID() returns (id: int)
      ensures |clients| == 0 ==> id == -1
      ensures |clients| > 0 ==> exists s :: s in clients && clients[s].sessionID == id
    {
      if |clients| == 0 {
        return -1;
      }
      assert clients.Keys != {};
      var s :| s in clients;
      id := clients[s].sessionID;
    }

    /** writeToClient: a line reaches only a session that is still open. */
    method WriteToClient(session: S, msg: string)
      modifies this`outbox
      ensures outbox == old(outbox) + WriteTo(closedSessions, session, msg)
    {
      if session !in closedSessions {
        outbox := outbox + [(session, msg)];
      }
    }

    /**
     * outputToClients: individually to the session with the given id, or
     * to every user of that session's hub; either way each recipient that
     * is still open gets msg exactly once.
     */
    method OutputToClients(sessionID: int, toHub: bool, onlyToIndividual: bool, onlyToAdmin: bool, msg: string)
      returns (ghost w: seq<(S, string)>)
      requires Valid()
      modifies this`outbox
      ensures outbox == old(outbox) + w
      ensures IsDelivery(w, Recipients(clients, Output(sessionID, toHub, onlyToIndividual, onlyToAdmin, msg)) - closedSessions, msg)
      ensures onlyToIndividual ==> |w| <= 1
    {
      ghost var o := Output(sessionID, toHub, onlyToIndividual, onlyToAdmin, msg);
      w := [];
      var found := GetSession(sessionID);
      if found.None? {
        // "No session match" is swallowed
        return;
      }
      var target := found.value;
      if onlyToIndividual {
        var targetClient := clients[target];
        if IndividualTarget(targetClient, toHub, onlyToAdmin) {
          WriteToClient(target, msg);
          w := WriteTo(closedSessions, target, msg);
          assert target !in closedSessions ==> w[0].0 == target;
        }
        assert Recipients(clients, o) == if IndividualTarget(clients[target], toHub, onlyToAdmin) then {target} else {};
      } else {
        var hubID := clients[target].hubID;
        w := WriteToHubUsers(hubID, onlyToAdmin, msg);
      }
    }

    /** The broadcast loop of outputToClients: every user of the hub (admins only, if asked) that is still open gets msg once. */
    method WriteToHubUsers(hubID: int, onlyToAdmin: bool, msg: string) returns (ghost w: seq<(S, string)>)
      modifies this`outbox
      ensures outbox == old(outbox) + w
      ensures IsDelivery(w, HubUsers(clients, hubID, onlyToAdmin) - closedSessions, msg)
    {
      w := [];
      ghost var recipients := HubUsers(clients, hubID, onlyToAdmin) - closedSessions;
      var keys := clients.Keys;
      assert recipients - keys == {};
      while keys != {}
        invariant keys <= clients.Keys
        invariant outbox == old(outbox) + w
        invariant forall i :: 0 <= i < |w| ==> w[i].1 == msg && w[i].0 !in keys
        invariant forall i, j :: 0 <= i < j < |w| ==> w[i].0 != w[j].0
        invariant SessionSet(w) == recipients - keys
        decreases keys
      {
        var s :| s in keys;
        var targetClient := clients[s];
        ghost var w0 := w;
        if BroadcastTarget(targetClient, hubID, onlyToAdmin) {
          WriteToClient(s, msg);
          w := w + WriteTo(closedSessions, s, msg);
        }
        if s in recipients {
          assert w == w0 + [(s, msg)] && w[..|w0|] == w0;
          assert recipients - (keys - {s}) == (recipients - keys) + {s};
        } else {
          assert w == w0;
          assert recipients - (keys - {s}) == recipients - keys;
        }
        keys := keys - {s};
      }
    }
  }
}
