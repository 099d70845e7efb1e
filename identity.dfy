/**
 * The connection identities: the plain not-yet-logged-in Client, and its
 * two specialisations Client_User and Client_Hub. The class hierarchy is a
 * datatype with one case per class; the static sessionCounter that every
 * constructor pre-increments is an explicit SessionCounter object.
 */
module Identity {

  /** Which class a client was constructed as, with the fields that class adds. */
  datatype Kind =
    | BaseClient
    | UserClient(nameID: string, admin: bool)
    | HubClient(alias: string)

  /** Client's fields: sessionID, loggedIn and the final hubID. */
  datatype Client = Client(sessionID: int, loggedIn: bool, hubID: int, kind: Kind)
  {
    /** Client_User.getNameID(). */
    function GetNameID(): string
      requires kind.UserClient?
    {
      kind.nameID
    }

    /** Client_User.isAdmin(). */
    predicate IsAdmin()
      requires kind.UserClient?
    {
      kind.admin
    }
  }

  /** The hubID the no-argument Client() constructor stores. */
  const NoHub: int := -1

  /** A client as its constructors leave it: only the specialised ones are logged in. */
  predicate WellFormed(c: Client)
  {
    c.loggedIn <==> !c.kind.BaseClient?
  }

  /** The shared counter that hands out session ids. */
  class SessionCounter {
    /** The value of sessionCounter: the last id handed out, so every id handed out so far lies in 1..last. */
    var last: int

    ghost predicate Valid()
      reads this
    {
      last >= 0
    }

    constructor ()
      ensures Valid() && last == 0
    {
      last := 0;
    }

    /** sessionID = ++sessionCounter */
    method NextId() returns (id: int)
      requires Valid()
      modifies this
      ensures Valid()
      ensures id == old(last) + 1 && last == id
    {
      last := last + 1;
      id := last;
    }

    /** new Client() */
    method NewClient() returns (c: Client)
      requires Valid()
      modifies this
      ensures Valid() && WellFormed(c)
      ensures last == old(last) + 1 && c.sessionID == last
      ensures !c.loggedIn && c.hubID == NoHub && c.kind == BaseClient
    {
      var id := NextId();
      c := Client(id, false, NoHub, BaseClient);
    }

    /** new Client(hubID): the constructor the subclasses call through super(hubID). */
    method NewClientOfHub(hubID: int) returns (c: Client)
      requires Valid()
      modifies this
      ensures Valid() && WellFormed(c)
      ensures last == old(last) + 1 && c.sessionID == last
      ensures !c.loggedIn && c.hubID == hubID && c.kind == BaseClient
    {
      var id := NextId();
      c := Client(id, false, hubID, BaseClient);
    }

    /** new Client_User(hubID, nameID, admin) */
    method NewUser(hubID: int, nameID: string, admin: bool) returns (c: Client)
      requires Valid()
      modifies this
      ensures Valid() && WellFormed(c)
      ensures last == old(last) + 1 && c.sessionID == last
      ensures c.loggedIn && c.hubID == hubID && c.kind == UserClient(nameID, admin)
      ensures c.GetNameID() == nameID && c.IsAdmin() == admin
    {
      c := NewClientOfHub(hubID);
      c := c.(kind := UserClient(nameID, admin));
      c := c.(loggedIn := true);
    }

    /** new Client_Hub(hubID, alias) */
    method NewHub(hubID: int, alias: string) returns (c: Client)
      requires Valid()
      modifies this
      ensures Valid() && WellFormed(c)
      ensures last == old(last) + 1 && c.sessionID == last
      ensures c.loggedIn && c.hubID == hubID && c.kind == HubClient(alias)
    {
      c := NewClientOfHub(hubID);
      c := c.(kind := HubClient(alias));
      c := c.(loggedIn := true);
    }
  }
}
