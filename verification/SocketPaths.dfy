/** Ownership of socket files by any number of servers in one process. A path is
    what a socket path resolves to inside one handler; which path that is may
    change between handlers, when a symlink is removed or retargeted. */
module SocketPaths {
  import opened Common

  type Path = nat
  type ServerId = nat

  datatype Creator = ByServer(server: ServerId) | Foreign

  /** The owner table of the runtime and the files themselves. History: which
      server last prepared each path for its own socket. */
  datatype Table = Table(owners: map<Path, ServerId>, files: map<Path, Creator>, prepared: map<Path, ServerId>)

  /** One server's acceptor and the path saved when its socket file was created. */
  datatype Socket = Socket(acceptor: bool, bound: Option<Path>)

  datatype BindOutcome = EndpointFails | OpenFails | BindFails | ListenFails | Listens

  function SetOwner(t: Table, path: Path, server: ServerId): Table {
    t.(owners := t.owners[path := server])
  }

  /** Preparing a path: whoever owned it no longer does, and its file goes, unless removal fails. */
  function Remove(t: Table, path: Path, server: ServerId, removed: bool): Table {
    Table(t.owners - {path}, if removed then t.files - {path} else t.files, t.prepared[path := server])
  }

  predicate Owns(t: Table, path: Path, server: ServerId) {
    path in t.owners && t.owners[path] == server
  }

  /** The owner gives the path up, and its file goes, unless removal fails. */
  function RemoveIfOwned(t: Table, path: Path, server: ServerId, cleaned: bool): Table {
    if Owns(t, path, server) then
      t.(owners := t.owners - {path}, files := if cleaned then t.files - {path} else t.files)
    else t
  }

  function CloseAcceptor(t: Table, k: Socket, server: ServerId, cleaned: bool): (Table, Socket) {
    (if k.bound.Some? then RemoveIfOwned(t, k.bound.value, server, cleaned) else t, Socket(false, None))
  }

  /** A socket file can only be created where there is none. */
  predicate Possible(t: Table, path: Path, removed: bool, outcome: BindOutcome) {
    outcome.ListenFails? || outcome.Listens? ==> removed || path !in t.files
  }

  /** `removed` and `cleaned` are whether the removals before the bind and on a failure succeed. */
  function Bind(
    t: Table, k: Socket, server: ServerId, path: Path, removed: bool, cleaned: bool, outcome: BindOutcome
  ): (Table, Socket) {
    if k.acceptor then (t, k)
    else if outcome.EndpointFails? then CloseAcceptor(t, k, server, cleaned)
    else
      var cleared := Remove(t, path, server, removed);
      var started := k.(acceptor := true);
      if outcome.OpenFails? || outcome.BindFails? then CloseAcceptor(cleared, started, server, cleaned)
      else
        var created := SetOwner(cleared.(files := cleared.files[path := ByServer(server)]), path, server);
        var listening := started.(bound := Some(path));
        if outcome.ListenFails? then CloseAcceptor(created, listening, server, cleaned) else (created, listening)
  }

  // ----------------------------------------------------- transition system

  datatype World = World(table: Table, sockets: map<ServerId, Socket>)

  datatype Event =
    | NewServer(server: ServerId)
    | BindRuns(server: ServerId, path: Path, removed: bool, cleaned: bool, outcome: BindOutcome)
    | CloseRuns(server: ServerId, cleaned: bool)
    | ForeignRemoval(path: Path)
    | ForeignCreation(path: Path)

  const Nothing := World(Table(map[], map[], map[]), map[])

  predicate Enabled(w: World, e: Event) {
    match e
    case NewServer(server) => server !in w.sockets
    case BindRuns(server, path, removed, _, outcome) => server in w.sockets && Possible(w.table, path, removed, outcome)
    case CloseRuns(server, _) => server in w.sockets
    case ForeignRemoval(path) => true
    case ForeignCreation(path) => path !in w.table.files
  }

  function Update(w: World, server: ServerId, result: (Table, Socket)): World {
    World(result.0, w.sockets[server := result.1])
  }

  function Step(w: World, e: Event): World {
    if !Enabled(w, e) then w else
    match e
    case NewServer(server) => w.(sockets := w.sockets[server := Socket(false, None)])
    case BindRuns(server, path, removed, cleaned, outcome) =>
      Update(w, server, Bind(w.table, w.sockets[server], server, path, removed, cleaned, outcome))
    case CloseRuns(server, cleaned) => Update(w, server, CloseAcceptor(w.table, w.sockets[server], server, cleaned))
    case ForeignRemoval(path) => w.(table := w.table.(files := w.table.files - {path}))
    case ForeignCreation(path) => w.(table := w.table.(files := w.table.files[path := Foreign]))
  }

  function Run(w: World, events: seq<Event>): World
    decreases |events|
  {
    if events == [] then w else Run(Step(w, events[0]), events[1..])
  }

  // ------------------------------------------------------------- invariant

  predicate BoundAt(w: World, server: ServerId, path: Path) {
    server in w.sockets && w.sockets[server].bound == Some(path)
  }

  /** No owner entry dangles; a server owns its saved path exactly as long as no
      server has prepared that path since; and an owner never finds another
      server's file at the path it owns. */
  ghost predicate OwnersAreCurrent(w: World) {
    && (forall s :: s in w.sockets && w.sockets[s].bound.Some? ==> w.sockets[s].acceptor)
    && (forall p :: p in w.table.owners ==> BoundAt(w, w.table.owners[p], p))
    && (forall s, p :: BoundAt(w, s, p) ==>
          p in w.table.prepared && (Owns(w.table, p, s) <==> w.table.prepared[p] == s))
    && (forall p :: p in w.table.owners && p in w.table.files && w.table.files[p].ByServer? ==>
          w.table.files[p].server == w.table.owners[p])
  }

  lemma CloseKeepsOwnersCurrent(w: World, server: ServerId, cleaned: bool)
    requires OwnersAreCurrent(w) && server in w.sockets
    ensures OwnersAreCurrent(Update(w, server, CloseAcceptor(w.table, w.sockets[server], server, cleaned)))
  {
    var t := Update(w, server, CloseAcceptor(w.table, w.sockets[server], server, cleaned));
    forall p | p in t.table.owners
      ensures BoundAt(t, t.table.owners[p], p)
    {
      assert BoundAt(w, w.table.owners[p], p);
    }
    forall s, p | BoundAt(t, s, p)
      ensures p in t.table.prepared && (Owns(t.table, p, s) <==> t.table.prepared[p] == s)
    {
      assert BoundAt(w, s, p);
    }
  }

  lemma ListeningKeepsOwnersCurrent(w: World, server: ServerId, path: Path, removed: bool, cleaned: bool)
    requires OwnersAreCurrent(w) && server in w.sockets && !w.sockets[server].acceptor
    requires removed || path !in w.table.files
    ensures OwnersAreCurrent(Update(w, server,
                               Bind(w.table, w.sockets[server], server, path, removed, cleaned, Listens)))
  {
    var t := Update(w, server, Bind(w.table, w.sockets[server], server, path, removed, cleaned, Listens));
    assert t.table.prepared == w.table.prepared[path := server];
    forall p | p in t.table.owners
      ensures BoundAt(t, t.table.owners[p], p)
    {
      if p != path {
        assert BoundAt(w, w.table.owners[p], p);
      }
    }
    forall s, p | BoundAt(t, s, p)
      ensures p in t.table.prepared && (Owns(t.table, p, s) <==> t.table.prepared[p] == s)
    {
      if s != server {
        assert BoundAt(w, s, p);
      }
    }
  }

  /** Preparing a path and then failing leaves the other servers' entries as they must be. */
  lemma PreparingKeepsOwnersCurrent(w: World, server: ServerId, path: Path, removed: bool, cleaned: bool)
    requires OwnersAreCurrent(w) && server in w.sockets && !w.sockets[server].acceptor
    ensures OwnersAreCurrent(Update(w, server,
                               Bind(w.table, w.sockets[server], server, path, removed, cleaned, BindFails)))
  {
    var t := Update(w, server, Bind(w.table, w.sockets[server], server, path, removed, cleaned, BindFails));
    forall p | p in t.table.owners
      ensures BoundAt(t, t.table.owners[p], p)
    {
      assert BoundAt(w, w.table.owners[p], p);
    }
    forall s, p | BoundAt(t, s, p)
      ensures p in t.table.prepared && (Owns(t.table, p, s) <==> t.table.prepared[p] == s)
    {
      assert BoundAt(w, s, p);
    }
  }

  lemma BindKeepsOwnersCurrent(
    w: World, server: ServerId, path: Path, removed: bool, cleaned: bool, outcome: BindOutcome
  )
    requires OwnersAreCurrent(w) && Enabled(w, BindRuns(server, path, removed, cleaned, outcome))
    ensures OwnersAreCurrent(Step(w, BindRuns(server, path, removed, cleaned, outcome)))
  {
    hide OwnersAreCurrent;
    var k := w.sockets[server];
    if k.acceptor {
      assert w.sockets[server := k] == w.sockets;
    } else {
      match outcome
      case EndpointFails => CloseKeepsOwnersCurrent(w, server, cleaned);
      case OpenFails | BindFails => PreparingKeepsOwnersCurrent(w, server, path, removed, cleaned);
      case Listens => ListeningKeepsOwnersCurrent(w, server, path, removed, cleaned);
      case ListenFails =>
        ListeningKeepsOwnersCurrent(w, server, path, removed, cleaned);
        var listening := Update(w, server, Bind(w.table, k, server, path, removed, cleaned, Listens));
        CloseKeepsOwnersCurrent(listening, server, cleaned);
        var after := CloseAcceptor(listening.table, listening.sockets[server], server, cleaned);
        assert listening.sockets[server := after.1] == w.sockets[server := after.1];
    }
  }

  lemma StepKeepsOwnersCurrent(w: World, e: Event)
    requires OwnersAreCurrent(w)
    ensures OwnersAreCurrent(Step(w, e))
  {
    if Enabled(w, e) {
      match e
      case BindRuns(server, path, removed, cleaned, outcome) =>
        BindKeepsOwnersCurrent(w, server, path, removed, cleaned, outcome);
      case CloseRuns(server, cleaned) => CloseKeepsOwnersCurrent(w, server, cleaned);
      case NewServer(server) =>
        var t := Step(w, e);
        forall p | p in t.table.owners
          ensures BoundAt(t, t.table.owners[p], p)
        {
          assert BoundAt(w, w.table.owners[p], p);
        }
        assert forall s, p :: BoundAt(t, s, p) ==> BoundAt(w, s, p);
      case ForeignRemoval(path) => FileChangeKeepsOwnersCurrent(w, Step(w, e));
      case ForeignCreation(path) => FileChangeKeepsOwnersCurrent(w, Step(w, e));
    }
  }

  lemma FileChangeKeepsOwnersCurrent(w: World, t: World)
    requires OwnersAreCurrent(w)
    requires t == w.(table := w.table.(files := t.table.files))
    requires forall p :: p in t.table.files && t.table.files[p].ByServer? ==>
      p in w.table.files && w.table.files[p] == t.table.files[p]
    ensures OwnersAreCurrent(t)
  {
    forall p | p in t.table.owners
      ensures BoundAt(t, t.table.owners[p], p)
    {
      assert BoundAt(w, w.table.owners[p], p);
    }
    assert forall s, p :: BoundAt(t, s, p) ==> BoundAt(w, s, p);
  }

  /** Ownership is current after every run of any number of servers. */
  lemma {:induction false} EveryRunKeepsOwnersCurrent(w: World, events: seq<Event>)
    requires OwnersAreCurrent(w)
    ensures OwnersAreCurrent(Run(w, events))
    decreases |events|
  {
    hide OwnersAreCurrent, Step;
    if events != [] {
      StepKeepsOwnersCurrent(w, events[0]);
      EveryRunKeepsOwnersCurrent(Step(w, events[0]), events[1..]);
    }
  }

  /** In particular, from the beginning. */
  lemma ReachableOwnersAreCurrent(events: seq<Event>)
    ensures OwnersAreCurrent(Run(Nothing, events))
  {
    EveryRunKeepsOwnersCurrent(Nothing, events);
  }

  /** Closing a server removes the file at its saved path exactly when no other server has
      prepared that path since and the removal succeeds, and touches no other file. */
  lemma CloseRemovesOnlyItsOwn(w: World, server: ServerId, path: Path, cleaned: bool)
    requires OwnersAreCurrent(w) && server in w.sockets && path in w.table.files
    ensures var t := Step(w, CloseRuns(server, cleaned));
            && (path !in t.table.files <==> BoundAt(w, server, path) && w.table.prepared[path] == server && cleaned)
            && (path in t.table.files ==> t.table.files[path] == w.table.files[path])
  {
    if BoundAt(w, server, path) {
      assert Owns(w.table, path, server) <==> w.table.prepared[path] == server;
    }
  }

  /** An old server never removes a newer one's socket. */
  lemma CloseSparesOtherServers(w: World, server: ServerId, other: ServerId, path: Path, cleaned: bool)
    requires OwnersAreCurrent(w) && server in w.sockets && server != other
    requires path in w.table.files && w.table.files[path] == ByServer(other)
    ensures path in Step(w, CloseRuns(server, cleaned)).table.files
    ensures Step(w, CloseRuns(server, cleaned)).table.files[path] == ByServer(other)
  {
    CloseRemovesOnlyItsOwn(w, server, path, cleaned);
  }

  /** A closed server leaves no ownership entry behind, even when its file stays. */
  lemma CloseLeavesNoOwnerEntry(w: World, server: ServerId, path: Path, cleaned: bool)
    requires OwnersAreCurrent(w) && server in w.sockets
    ensures !Owns(Step(w, CloseRuns(server, cleaned)).table, path, server)
  {
    var t := Step(w, CloseRuns(server, cleaned));
    StepKeepsOwnersCurrent(w, CloseRuns(server, cleaned));
    assert path in t.table.owners ==> BoundAt(t, t.table.owners[path], path);
  }

  // ------------------------------------------------------- what a bind does

  /** Every other path is as it was. */
  predicate OthersKept(w: World, t: World, path: Path) {
    && t.sockets.Keys == w.sockets.Keys
    && (forall p :: p in w.table.owners && p != path ==>
          p in t.table.owners && t.table.owners[p] == w.table.owners[p])
    && (forall p :: p in t.table.owners && p != path ==> p in w.table.owners)
    && (forall p :: p in w.table.files && p != path ==>
          p in t.table.files && t.table.files[p] == w.table.files[p])
    && (forall p :: p in t.table.files && p != path ==> p in w.table.files && t.table.files[p] == w.table.files[p])
  }

  /** A bind that succeeds listens: the server holds an acceptor, remembers the path its
      socket path resolved to, owns it, and its own file is there. Every other outcome leaves
      it without acceptor and saved path. A server that already listens changes nothing, and
      no other server or path is touched. */
  lemma BindBinds(w: World, server: ServerId, path: Path, removed: bool, cleaned: bool, outcome: BindOutcome)
    requires OwnersAreCurrent(w) && Enabled(w, BindRuns(server, path, removed, cleaned, outcome))
    ensures var t := Step(w, BindRuns(server, path, removed, cleaned, outcome));
            if w.sockets[server].acceptor then t == w
            else
              && t.sockets[server].acceptor == outcome.Listens?
              && t.sockets[server].bound == (if outcome.Listens? then Some(path) else None)
              && (outcome.Listens? ==>
                    && BoundAt(t, server, path) && Owns(t.table, path, server)
                    && path in t.table.files && t.table.files[path] == ByServer(server))
              && (forall s :: s in w.sockets && s != server ==> t.sockets[s] == w.sockets[s])
              && OthersKept(w, t, path)
  {
    hide OthersKept, OwnersAreCurrent;
    if w.sockets[server].acceptor {
      assert w.sockets[server := w.sockets[server]] == w.sockets;
    } else {
      UnboundWithoutAcceptor(w, server);
      BindKeepsOthers(w, server, path, removed, cleaned, outcome);
    }
  }

  lemma UnboundWithoutAcceptor(w: World, server: ServerId)
    requires OwnersAreCurrent(w) && server in w.sockets && !w.sockets[server].acceptor
    ensures w.sockets[server].bound.None?
  {
  }

  lemma BindKeepsOthers(w: World, server: ServerId, path: Path, removed: bool, cleaned: bool, outcome: BindOutcome)
    requires Enabled(w, BindRuns(server, path, removed, cleaned, outcome)) && w.sockets[server] == Socket(false, None)
    ensures OthersKept(w, Step(w, BindRuns(server, path, removed, cleaned, outcome)), path)
  {
  }

  /** A bind that gets as far as preparing its path takes it from whoever owned it, and
      removes the file there if it can; one that fails before leaves the path alone. */
  lemma BindPrepares(w: World, server: ServerId, path: Path, removed: bool, cleaned: bool, outcome: BindOutcome)
    requires OwnersAreCurrent(w) && Enabled(w, BindRuns(server, path, removed, cleaned, outcome))
    requires !w.sockets[server].acceptor
    ensures var t := Step(w, BindRuns(server, path, removed, cleaned, outcome));
            match outcome
            case EndpointFails => t.table == w.table
            case OpenFails | BindFails =>
              && path !in t.table.owners && path in t.table.prepared && t.table.prepared[path] == server
              && (path in t.table.files <==> path in w.table.files && !removed)
            case ListenFails =>
              && path !in t.table.owners && path in t.table.prepared && t.table.prepared[path] == server
              && (path in t.table.files <==> !cleaned)
            case Listens => path in t.table.prepared && t.table.prepared[path] == server
  {
  }

  /** A closed server holds no acceptor and no saved path, and nobody else notices. */
  lemma CloseReleases(w: World, server: ServerId, path: Path, cleaned: bool)
    requires OwnersAreCurrent(w) && server in w.sockets
    ensures var t := Step(w, CloseRuns(server, cleaned));
            && t.sockets[server] == Socket(false, None)
            && (forall s :: s in w.sockets && s != server ==> t.sockets[s] == w.sockets[s])
            && (path in t.table.owners <==>
                  path in w.table.owners && !(w.sockets[server].bound == Some(path) && w.table.owners[path] == server))
            && (path in t.table.owners ==> t.table.owners[path] == w.table.owners[path])
  {
  }

  /** Any server can be bound to any path. */
  lemma AnyServerCanBind(w: World, server: ServerId, path: Path)
    requires OwnersAreCurrent(w)
    ensures exists events ::
              var t := Run(w, events);
              && BoundAt(t, server, path) && Owns(t.table, path, server)
              && server in t.sockets && t.sockets[server].acceptor
  {
    hide OwnersAreCurrent;
    var events := [NewServer(server)] + [CloseRuns(server, true)] + [BindRuns(server, path, true, true, Listens)];
    var made := Step(w, NewServer(server));
    var closed := Step(made, CloseRuns(server, true));
    var bound := Step(closed, BindRuns(server, path, true, true, Listens));
    StepKeepsOwnersCurrent(w, NewServer(server));
    StepKeepsOwnersCurrent(made, CloseRuns(server, true));
    CloseReleases(made, server, path, true);
    BindBinds(closed, server, path, true, true, Listens);
    assert events[1..][1..][1..] == [];
    assert events[1..][1..] == [BindRuns(server, path, true, true, Listens)];
    assert events[1..] == [CloseRuns(server, true)] + [BindRuns(server, path, true, true, Listens)];
    assert Run(bound, []) == bound;
    assert Run(closed, events[1..][1..]) == bound;
    assert Run(made, events[1..]) == bound;
    assert Run(w, events) == bound;
  }
}
