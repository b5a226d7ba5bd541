/** `Session` (src/auth/session.py): one logged-in user's session, with its
    idle timeout and a bag of extra data. The clock (`time.time()`) is a
    parameter in whole seconds. */
module Sessions {
  import opened Values

  /** One hour of inactivity ends a session unless told otherwise. */
  const DefaultMaxIdleTime := 3600

  class Session {
    const userId: Json
    const token: string
    const createdAt: int
    const maxIdleTime: int
    var lastAccess: int
    var data: map<string, Json>

    /** A new session is accessed at its creation instant and holds no data. */
    constructor(userId: Json, token: string, now: int, maxIdleTime: int := DefaultMaxIdleTime)
      ensures this.userId == userId && this.token == token && this.maxIdleTime == maxIdleTime
      ensures createdAt == now && lastAccess == now
      ensures data == map[]
    {
      this.userId := userId;
      this.token := token;
      createdAt := now;
      lastAccess := now;
      this.maxIdleTime := maxIdleTime;
      data := map[];
    }

    /** `update_last_access` */
    method UpdateLastAccess(now: int)
      modifies this
      ensures lastAccess == now && data == old(data)
    {
      lastAccess := now;
    }

    /** `is_expired`: idle for strictly longer than the allowed time. */
    predicate IsExpired(now: int)
      reads this
    {
      now - lastAccess > maxIdleTime
    }

    /** `set_data`: the key maps to the value; every other key keeps its value. */
    method SetData(key: string, value: Json)
      modifies this
      ensures forall default :: GetData(key, default) == value
      ensures forall k, default :: k != key ==> GetData(k, default) == old(GetData(k, default))
      ensures data.Keys == old(data.Keys) + {key}
      ensures lastAccess == old(lastAccess)
    {
      data := data[key := value];
    }

    /** `get_data`: the stored value, or the default for an absent key. */
    function GetData(key: string, default: Json): (r: Json)
      reads this
      ensures key in data ==> r == data[key]
      ensures key !in data ==> r == default
    {
      Get(data, key, default)
    }

    /** `clear_data`: every key now reads as its default. */
    method ClearData()
      modifies this
      ensures data == map[]
      ensures forall k, default :: GetData(k, default) == default
      ensures lastAccess == old(lastAccess)
    {
      data := map[];
    }

    /** `to_dict`: exactly the six session fields. */
    function ToDict(): (r: Dict)
      reads this
      ensures r.Keys == {"user_id", "token", "created_at", "last_access", "max_idle_time", "data"}
      ensures r["user_id"] == userId && r["token"] == JStr(token) && r["data"] == JObj(data)
      ensures r["created_at"] == JInt(createdAt) && r["last_access"] == JInt(lastAccess)
      ensures r["max_idle_time"] == JInt(maxIdleTime)
    {
      map["user_id" := userId, "token" := JStr(token), "created_at" := JInt(createdAt),
          "last_access" := JInt(lastAccess), "max_idle_time" := JInt(maxIdleTime), "data" := JObj(data)]
    }
  }

  /** A session is live up to and including `max_idle_time` seconds after its
      last access and expired from the next second on. */
  lemma ExpiryBoundary(s: Session)
    ensures !s.IsExpired(s.lastAccess + s.maxIdleTime)
    ensures s.IsExpired(s.lastAccess + s.maxIdleTime + 1)
  {
  }

  /** Once expired, a session stays expired as the clock moves on. */
  lemma ExpiryIsMonotone(s: Session, t: int, u: int)
    requires t <= u && s.IsExpired(t)
    ensures s.IsExpired(u)
  {
  }

  /** Right after an access a session with a non-negative timeout is live. */
  lemma FreshAccessIsLive(s: Session, now: int)
    requires s.lastAccess == now && s.maxIdleTime >= 0
    ensures !s.IsExpired(now)
  {
  }
}
