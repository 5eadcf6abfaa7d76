/** Connection settings of the MySQL client (pkg/client/mysql/options.go). */
module MysqlOptions {

  import opened Wrappers

  /** The reasons `Validate` gives, in the order it checks them. */
  datatype OptionsError = HostRequired | DatabaseRequired | UsernameRequired

  class Options {
    var Host: string
    var Username: string
    var Database: string
    var Password: string
    var PoolLimit: int
    var MaxIdle: int
    var MaxLife: int

    /** The zero value `&Options{}`: every string empty, every number 0. */
    constructor Zero()
      ensures Host == "" && Username == "" && Database == "" && Password == ""
      ensures PoolLimit == 0 && MaxIdle == 0 && MaxLife == 0
      ensures Validate() == Some(HostRequired)
    {
      Host, Username, Database, Password := "", "", "", "";
      PoolLimit, MaxIdle, MaxLife := 0, 0, 0;
    }

    /** `NewOptions`: the zero value with the defaults applied, hence valid. */
    constructor NewOptions()
      ensures Host == "localhost:3306" && Database == "test" && Username == "root"
      ensures Password == "" && PoolLimit == 0 && MaxIdle == 0 && MaxLife == 0
      ensures Validate() == None
    {
      Host, Username, Database, Password := "", "", "", "";
      PoolLimit, MaxIdle, MaxLife := 0, 0, 0;
      new;
      SetDefaults();
    }

    /** Sets host, database and username; the other fields keep their values. */
    method SetDefaults()
      modifies this
      ensures Host == "localhost:3306" && Database == "test" && Username == "root"
      ensures Password == old(Password) && PoolLimit == old(PoolLimit)
      ensures MaxIdle == old(MaxIdle) && MaxLife == old(MaxLife)
      ensures Validate() == None
    {
      Host := "localhost:3306";
      Database := "test";
      Username := "root";
    }

    /**
     * Valid exactly when host, database and username are all set; the
     * password and the pool sizes are never looked at. The first missing
     * field, in the order host, database, username, is the one reported.
     */
    function Validate(): (err: Option<OptionsError>)
      reads this
      ensures err == None <==> Host != "" && Database != "" && Username != ""
      ensures Host == "" ==> err == Some(HostRequired)
      ensures Host != "" && Database == "" ==> err == Some(DatabaseRequired)
      ensures Host != "" && Database != "" && Username == "" ==> err == Some(UsernameRequired)
    {
      if Host == "" then Some(HostRequired)
      else if Database == "" then Some(DatabaseRequired)
      else if Username == "" then Some(UsernameRequired)
      else None
    }
  }
}
