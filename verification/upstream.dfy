/**
 * The persisted upstream record and its gorm creation hook
 * (pkg/proxy/model/upstream.go).
 */
module ProxyModel {

  import opened Wrappers

  /** Prefix of every identifier the creation hook generates. */
  const IdPrefix: string := "upstream-"

  /**
   * One upstream record. Timestamps are nanoseconds since the epoch;
   * `DeletedAt == None` is gorm's "not soft-deleted".
   */
  class Upstream {
    var ID: string
    var CreatedAt: int
    var UpdatedAt: int
    var DeletedAt: Option<int>
    var ExpiredAt: int
    var Endpoint: string
    var DomainName: string

    /** The database table every upstream record lives in. */
    function TableName(): (name: string)
      ensures name == "upstreams"
    {
      "upstreams"
    }

    /**
     * Fills an empty ID with the prefix followed by a freshly generated
     * identifier (`generated` stands for `xid.New()`); a record that already
     * has an ID is left alone, so a second call never changes the ID.
     */
    method BeforeCreate(generated: string) returns (err: Option<string>)
      modifies this
      ensures err == None
      ensures ID != ""
      ensures old(ID) == "" ==> ID == IdPrefix + generated
      ensures old(ID) != "" ==> unchanged(this)
      ensures CreatedAt == old(CreatedAt) && UpdatedAt == old(UpdatedAt)
      ensures DeletedAt == old(DeletedAt) && ExpiredAt == old(ExpiredAt)
      ensures Endpoint == old(Endpoint) && DomainName == old(DomainName)
    {
      if ID == "" {
        ID := IdPrefix + generated;
      }
      err := None;
    }
  }
}
