/**
 * The server's settings: the debug flag, the port, the client limit and the
 * database specification, whose account and password can be read out once
 * and are then erased.
 */
module Configuration {

  class Settings {
    var debugMode: bool
    var serverPort: int
    /** Maximum number of simultaneously connected clients. */
    var clientLimit: int
    var dbIP: string
    /** Kept as text, as the database driver wants it. */
    var dbPort: string
    var dbDatabase: string
    var dbAccount: string
    var dbPassword: string

    /** The values readInSettings copies from the configuration file. */
    constructor (debugMode: bool, serverPort: int, clientLimit: int, dbIP: string, dbPort: string,
                 dbDatabase: string, dbAccount: string, dbPassword: string)
      ensures this.debugMode == debugMode && this.serverPort == serverPort && this.clientLimit == clientLimit
      ensures this.dbIP == dbIP && this.dbPort == dbPort && this.dbDatabase == dbDatabase
      ensures this.dbAccount == dbAccount && this.dbPassword == dbPassword
    {
      this.debugMode := debugMode;
      this.serverPort := serverPort;
      this.clientLimit := clientLimit;
      this.dbIP := dbIP;
      this.dbPort := dbPort;
      this.dbDatabase := dbDatabase;
      this.dbAccount := dbAccount;
      this.dbPassword := dbPassword;
    }

    /** getDbSpecs: the five database settings in order; the account and the password are cleared afterwards. */
    method GetDbSpecs() returns (specs: seq<string>)
      modifies this`dbAccount, this`dbPassword
      ensures specs == [dbIP, dbPort, dbDatabase, old(dbAccount), old(dbPassword)]
      ensures dbAccount == "" && dbPassword == ""
    {
      specs := [dbIP, dbPort, dbDatabase, dbAccount, dbPassword];
      dbAccount := "";
      dbPassword := "";
    }

    /** A second read of the database settings finds the credentials already erased. */
    method GetDbSpecsTwice() returns (first: seq<string>, second: seq<string>)
      modifies this`dbAccount, this`dbPassword
      ensures first == [dbIP, dbPort, dbDatabase, old(dbAccount), old(dbPassword)]
      ensures second == [dbIP, dbPort, dbDatabase, "", ""]
      ensures first[..3] == second[..3]
    {
      first := GetDbSpecs();
      second := GetDbSpecs();
    }

    /** isDebugMode, getServerPort and getClientLimit return the stored fields. */
    function IsDebugMode(): bool
      reads this
    {
      debugMode
    }

    function GetServerPort(): int
      reads this
    {
      serverPort
    }

    function GetClientLimit(): int
      reads this
    {
      clientLimit
    }
  }
}
