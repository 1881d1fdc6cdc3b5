/** Tables of things with an id and a name, users and channels, and the caches
    that read through to them. */
module Directory {
  import opened Sequences

  datatype Named = Named(id: nat, name: string)

  function ById(rows: seq<Named>, id: nat): Option<Named> {
    if rows == [] then None
    else if rows[|rows| - 1].id == id then Some(rows[|rows| - 1])
    else ById(rows[..|rows| - 1], id)
  }

  function ByName(rows: seq<Named>, name: string): Option<Named> {
    if rows == [] then None
    else if rows[|rows| - 1].name == name then Some(rows[|rows| - 1])
    else ByName(rows[..|rows| - 1], name)
  }

  /** Neither an id nor a name occurs twice. */
  predicate Unique(rows: seq<Named>) {
    forall i, j | 0 <= i < j < |rows| :: rows[i].id != rows[j].id && rows[i].name != rows[j].name
  }

  /** What the cache holds is in the table. */
  predicate Within(cache: seq<Named>, rows: seq<Named>) {
    forall x | x in cache :: x in rows
  }

  lemma {:induction false} LookupSound(rows: seq<Named>, id: nat, name: string)
    ensures ById(rows, id).Some? ==> ById(rows, id).value in rows && ById(rows, id).value.id == id
    ensures ByName(rows, name).Some? ==> ByName(rows, name).value in rows && ByName(rows, name).value.name == name
  {
    if rows != [] { LookupSound(rows[..|rows| - 1], id, name); }
  }

  /** With unique keys a lookup finds exactly the row that has the key. */
  lemma {:induction false} LookupExact(rows: seq<Named>, x: Named)
    requires Unique(rows) && x in rows
    ensures ById(rows, x.id) == Some(x) && ByName(rows, x.name) == Some(x)
  {
    var last := rows[|rows| - 1];
    if x != last {
      var front := rows[..|rows| - 1];
      assert rows == front + [last];
      LookupExact(front, x);
      var i :| 0 <= i < |front| && front[i] == x;
      assert rows[i] == x;
    }
  }

  lemma LookupMisses(rows: seq<Named>, id: nat, name: string)
    requires Unique(rows)
    ensures ById(rows, id) == None ==> forall x | x in rows :: x.id != id
    ensures ByName(rows, name) == None ==> forall x | x in rows :: x.name != name
  {
    forall x | x in rows ensures (ById(rows, id) == None ==> x.id != id) && (ByName(rows, name) == None ==> x.name != name) {
      LookupExact(rows, x);
    }
  }

  lemma UniqueAppend(rows: seq<Named>, x: Named)
    requires Unique(rows) && ById(rows, x.id) == None && ByName(rows, x.name) == None
    ensures Unique(rows + [x])
  {
    LookupMisses(rows, x.id, x.name);
    forall i | 0 <= i < |rows| ensures rows[i].id != x.id && rows[i].name != x.name {
      assert rows[i] in rows;
    }
  }

  // --------------------------------------------------------------- user cache

  /** The cache refuses an entry whose id or name it has already. */
  function EmplaceUser(cache: seq<Named>, x: Named): seq<Named> {
    if ById(cache, x.id).Some? || ByName(cache, x.name).Some? then cache else cache + [x]
  }

  /** The entry that is in the cache afterwards. */
  function EmplacedUser(cache: seq<Named>, x: Named): Named {
    if ById(cache, x.id).Some? then ById(cache, x.id).value
    else if ByName(cache, x.name).Some? then ByName(cache, x.name).value
    else x
  }

  datatype Found = Found(item: Option<Named>, cache: seq<Named>)

  function ReadUserById(cache: seq<Named>, rows: seq<Named>, id: nat): Found {
    if ById(cache, id).Some? then Found(ById(cache, id), cache)
    else match ById(rows, id)
      case None => Found(None, cache)
      case Some(x) => Found(Some(EmplacedUser(cache, x)), EmplaceUser(cache, x))
  }

  function ReadUserByName(cache: seq<Named>, rows: seq<Named>, name: string): Found {
    if ByName(cache, name).Some? then Found(ByName(cache, name), cache)
    else match ByName(rows, name)
      case None => Found(None, cache)
      case Some(x) => Found(Some(EmplacedUser(cache, x)), EmplaceUser(cache, x))
  }

  predicate CacheOk(cache: seq<Named>, rows: seq<Named>) {
    Unique(rows) && Unique(cache) && Within(cache, rows)
  }

  /** Caching a row of the table puts that very row in the cache. */
  lemma EmplaceUserOk(cache: seq<Named>, rows: seq<Named>, x: Named)
    requires CacheOk(cache, rows) && x in rows
    ensures CacheOk(EmplaceUser(cache, x), rows) && EmplacedUser(cache, x) == x && x in EmplaceUser(cache, x)
  {
    LookupSound(cache, x.id, x.name);
    LookupExact(rows, x);
    if ById(cache, x.id).Some? { LookupExact(rows, ById(cache, x.id).value); }
    if ByName(cache, x.name).Some? { LookupExact(rows, ByName(cache, x.name).value); }
    if ById(cache, x.id).None? && ByName(cache, x.name).None? { UniqueAppend(cache, x); }
  }

  /** Reading through the cache is reading the table, whatever is cached, and what is
      found is cached afterwards. */
  lemma UserByIdExact(cache: seq<Named>, rows: seq<Named>, id: nat)
    requires CacheOk(cache, rows)
    ensures var f := ReadUserById(cache, rows, id); f.item == ById(rows, id) && CacheOk(f.cache, rows)
    ensures var f := ReadUserById(cache, rows, id);
      cache <= f.cache && (f.item.Some? ==> f.item.value in f.cache)
  {
    LookupSound(cache, id, "");
    LookupSound(rows, id, "");
    if ById(cache, id).Some? {
      LookupExact(rows, ById(cache, id).value);
    } else if ById(rows, id).Some? {
      EmplaceUserOk(cache, rows, ById(rows, id).value);
    }
  }

  lemma UserByNameExact(cache: seq<Named>, rows: seq<Named>, name: string)
    requires CacheOk(cache, rows)
    ensures var f := ReadUserByName(cache, rows, name); f.item == ByName(rows, name) && CacheOk(f.cache, rows)
    ensures var f := ReadUserByName(cache, rows, name);
      cache <= f.cache && (f.item.Some? ==> f.item.value in f.cache)
  {
    LookupSound(cache, 0, name);
    LookupSound(rows, 0, name);
    if ByName(cache, name).Some? {
      LookupExact(rows, ByName(cache, name).value);
    } else if ByName(rows, name).Some? {
      EmplaceUserOk(cache, rows, ByName(rows, name).value);
    }
  }

  datatype FoundAll = FoundAll(items: seq<Named>, cache: seq<Named>)

  /** Each id in turn; ids that are nobody's are skipped. */
  function ReadUsers(cache: seq<Named>, rows: seq<Named>, ids: seq<nat>): FoundAll {
    if ids == [] then FoundAll([], cache)
    else
      var before := ReadUsers(cache, rows, ids[..|ids| - 1]);
      var f := ReadUserById(before.cache, rows, ids[|ids| - 1]);
      FoundAll(if f.item.Some? then before.items + [f.item.value] else before.items, f.cache)
  }

  function RowsOf(rows: seq<Named>, ids: seq<nat>): seq<Named> {
    if ids == [] then []
    else
      RowsOf(rows, ids[..|ids| - 1]) +
      match ById(rows, ids[|ids| - 1])
      case None => []
      case Some(x) => [x]
  }

  lemma {:induction false} ReadUsersExact(cache: seq<Named>, rows: seq<Named>, ids: seq<nat>)
    requires CacheOk(cache, rows)
    ensures var f := ReadUsers(cache, rows, ids); f.items == RowsOf(rows, ids) && CacheOk(f.cache, rows)
  {
    hide CacheOk, ById, ReadUserById;
    if ids != [] {
      var front := ids[..|ids| - 1];
      ReadUsersExact(cache, rows, front);
      UserByIdExact(ReadUsers(cache, rows, front).cache, rows, ids[|ids| - 1]);
    }
  }

  // ------------------------------------------------------------ channel cache

  /** The channel cache refuses only an id it has already. */
  function EmplaceChannel(cache: seq<Named>, x: Named): seq<Named> {
    if ById(cache, x.id).Some? then cache else cache + [x]
  }

  function EmplacedChannel(cache: seq<Named>, x: Named): Named {
    if ById(cache, x.id).Some? then ById(cache, x.id).value else x
  }

  function ReadChannelById(cache: seq<Named>, rows: seq<Named>, id: nat): Found {
    if ById(cache, id).Some? then Found(ById(cache, id), cache)
    else match ById(rows, id)
      case None => Found(None, cache)
      case Some(x) => Found(Some(EmplacedChannel(cache, x)), EmplaceChannel(cache, x))
  }

  function ReadChannelByName(cache: seq<Named>, rows: seq<Named>, name: string): Found {
    if ByName(cache, name).Some? then Found(ByName(cache, name), cache)
    else match ByName(rows, name)
      case None => Found(None, cache)
      case Some(x) => Found(Some(EmplacedChannel(cache, x)), EmplaceChannel(cache, x))
  }

  /** The channel cache is complete: filled at the start and at each creation. */
  predicate Mirrors(cache: seq<Named>, rows: seq<Named>) {
    CacheOk(cache, rows) && Within(rows, cache)
  }

  lemma MirrorLookups(cache: seq<Named>, rows: seq<Named>, id: nat, name: string)
    requires Mirrors(cache, rows)
    ensures ById(cache, id) == ById(rows, id) && ByName(cache, name) == ByName(rows, name)
  {
    LookupSound(cache, id, name);
    LookupSound(rows, id, name);
    LookupMisses(cache, id, name);
    if ById(cache, id).Some? { LookupExact(rows, ById(cache, id).value); }
    if ByName(cache, name).Some? { LookupExact(rows, ByName(cache, name).value); }
  }

  lemma ChannelsExact(cache: seq<Named>, rows: seq<Named>, id: nat, name: string)
    requires Mirrors(cache, rows)
    ensures ReadChannelById(cache, rows, id) == Found(ById(rows, id), cache)
    ensures ReadChannelByName(cache, rows, name) == Found(ByName(rows, name), cache)
  {
    MirrorLookups(cache, rows, id, name);
  }

  /** A channel created in the table and cached at once. */
  lemma MirrorAppend(cache: seq<Named>, rows: seq<Named>, x: Named)
    requires Mirrors(cache, rows) && ById(rows, x.id) == None && ByName(rows, x.name) == None
    ensures Mirrors(EmplaceChannel(cache, x), rows + [x]) && EmplacedChannel(cache, x) == x
  {
    MirrorLookups(cache, rows, x.id, x.name);
    UniqueAppend(rows, x);
    UniqueAppend(cache, x);
  }

  // ------------------------------------------------------------------ prewarm

  function EmplaceUsers(rows: seq<Named>): seq<Named> {
    if rows == [] then [] else EmplaceUser(EmplaceUsers(rows[..|rows| - 1]), rows[|rows| - 1])
  }

  function EmplaceChannels(rows: seq<Named>): seq<Named> {
    if rows == [] then [] else EmplaceChannel(EmplaceChannels(rows[..|rows| - 1]), rows[|rows| - 1])
  }

  lemma {:induction false} PrewarmedCaches(rows: seq<Named>)
    requires Unique(rows)
    ensures EmplaceUsers(rows) == rows && EmplaceChannels(rows) == rows
  {
    if rows != [] {
      var front, last := rows[..|rows| - 1], rows[|rows| - 1];
      PrewarmedCaches(front);
      LookupSound(front, last.id, last.name);
      assert rows == front + [last];
    }
  }
}
