/**
 * The slave Redis node as the failover agents see it: the one coordination key
 * `failover:promoted_at` and the node's replication role. The commands the agent
 * issues on it (EXISTS, GET, DEL, and the WATCH/MULTI/EXEC block) are methods;
 * Redis runs each command, and each EXEC, atomically.
 */
module RedisStore {
  import opened Base

  /** What an EXEC guarded by WATCH on the key leaves behind. */
  datatype CasResult = CasResult(key: Option<Time>, committed: bool)

  /**
   * The promotion transaction: it commits exactly when the watched key is still
   * absent, and a committed transaction leaves the key holding its timestamp.
   * The key is present afterwards either way.
   */
  function ExecIfAbsent(key: Option<Time>, at: Time): (r: CasResult)
    ensures r.committed <==> key.None?
    ensures r.key.Some?
    ensures r.committed ==> r.key == Some(at)
    ensures !r.committed ==> r.key == key
  {
    match key
    case None => CasResult(Some(at), true)
    case Some(_) => CasResult(key, false)
  }

  class Store {
    /** The value of `failover:promoted_at`, or None when the key does not exist. */
    var promotedAt: Option<Time>
    /** True once `SLAVEOF NO ONE` has detached the node from its master. */
    var isPrimary: bool

    constructor (promotedAt: Option<Time>, isPrimary: bool)
      ensures this.promotedAt == promotedAt && this.isPrimary == isPrimary
    {
      this.promotedAt := promotedAt;
      this.isPrimary := isPrimary;
    }

    /** `EXISTS failover:promoted_at`. */
    method Exists() returns (present: bool)
      ensures present <==> promotedAt.Some?
    {
      present := promotedAt.Some?;
    }

    /** `GET failover:promoted_at`. */
    method Get() returns (value: Option<Time>)
      ensures value == promotedAt
    {
      value := promotedAt;
    }

    /** `DEL failover:promoted_at`. */
    method Delete()
      modifies this
      ensures promotedAt.None? && isPrimary == old(isPrimary)
    {
      promotedAt := None;
    }

    /**
     * `MULTI; SET failover:promoted_at at; SLAVEOF NO ONE; EXEC` under a WATCH of
     * the key: both writes happen, or neither does.
     */
    method ExecPromotion(at: Time) returns (committed: bool)
      modifies this
      ensures CasResult(promotedAt, committed) == ExecIfAbsent(old(promotedAt), at)
      ensures isPrimary == (old(isPrimary) || committed)
    {
      committed := promotedAt.None?;
      if committed {
        promotedAt := Some(at);
        isPrimary := true;
      }
    }
  }
}
