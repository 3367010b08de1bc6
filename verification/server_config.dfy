/** The stored connection settings of the remote SQL server (ServerConfig.kt). */
module ServerConfigs {
  import opened Text

  datatype ServerConfig = ServerConfig(id: int, serverIp: string, sqlUser: string, sqlPassword: string)

  /** The constructor with its default key: the settings are a single row under id 1. */
  function NewServerConfig(serverIp: string, sqlUser: string, sqlPassword: string): (c: ServerConfig)
    ensures c.id == 1
    ensures c.serverIp == serverIp && c.sqlUser == sqlUser && c.sqlPassword == sqlPassword
  {
    ServerConfig(1, serverIp, sqlUser, sqlPassword)
  }

  /** `isEmpty`: some field is blank. */
  function IsEmpty(c: ServerConfig): (r: bool)
    ensures r <==> IsBlank(c.serverIp) || IsBlank(c.sqlUser) || IsBlank(c.sqlPassword)
  {
    IsBlank(c.serverIp) || IsBlank(c.sqlUser) || IsBlank(c.sqlPassword)
  }

  /** Settings are usable exactly when each field holds a character that is not whitespace. */
  lemma NotEmptyIff(c: ServerConfig)
    ensures !IsEmpty(c) <==>
      && (exists i :: 0 <= i < |c.serverIp| && !IsWhitespace(c.serverIp[i]))
      && (exists i :: 0 <= i < |c.sqlUser| && !IsWhitespace(c.sqlUser[i]))
      && (exists i :: 0 <= i < |c.sqlPassword| && !IsWhitespace(c.sqlPassword[i]))
  {
  }

  /** An address padded with spaces still counts as given; one made of spaces does not. */
  lemma BlankExamples(user: string, password: string)
    ensures IsEmpty(NewServerConfig("   ", user, password))
    ensures IsEmpty(NewServerConfig("", user, password))
    ensures !IsEmpty(NewServerConfig(" 10.0.0.1 ", "sa", "pw"))
  {
    assert !IsWhitespace(" 10.0.0.1 "[1]);
    assert !IsWhitespace("sa"[0]);
    assert !IsWhitespace("pw"[0]);
  }
}
