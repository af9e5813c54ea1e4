/** The runtime's owner table and a server's acceptor as classes updated in place,
    proved against the value model. */
module Runtime {
  import opened Common
  import SocketPaths

  type Path = SocketPaths.Path
  type ServerId = SocketPaths.ServerId

  /** The process-wide runtime, together with the file system it removes files from. */
  class Runtime {
    var socketFilePathOwners: map<Path, ServerId>
    var files: map<Path, SocketPaths.Creator>
    ghost var prepared: map<Path, ServerId>

    ghost function View(): SocketPaths.Table
      reads this
    {
      SocketPaths.Table(socketFilePathOwners, files, prepared)
    }

    constructor ()
      ensures View() == SocketPaths.Table(map[], map[], map[])
    {
      socketFilePathOwners, files, prepared := map[], map[], map[];
    }

    method SetSocketFilePathOwner(path: Path, owner: ServerId)
      modifies `socketFilePathOwners
      ensures View() == SocketPaths.SetOwner(old(View()), path, owner)
    {
      socketFilePathOwners := socketFilePathOwners[path := owner];
    }

    method RemoveSocketFilePath(path: Path, ghost preparer: ServerId, removed: bool)
      modifies this
      ensures View() == SocketPaths.Remove(old(View()), path, preparer, removed)
    {
      socketFilePathOwners := socketFilePathOwners - {path};
      if removed {
        files := files - {path};
      }
      prepared := prepared[path := preparer];
    }

    method RemoveSocketFilePathIfOwned(path: Path, owner: ServerId, cleaned: bool)
      modifies `socketFilePathOwners, `files
      ensures View() == SocketPaths.RemoveIfOwned(old(View()), path, owner, cleaned)
    {
      if path in socketFilePathOwners && socketFilePathOwners[path] == owner {
        socketFilePathOwners := socketFilePathOwners - {path};
        if cleaned {
          files := files - {path};
        }
      }
    }

    method CreateSocketFile(path: Path, creator: ServerId)
      modifies `files
      ensures View() == old(View()).(files := old(files)[path := SocketPaths.ByServer(creator)])
    {
      files := files[path := SocketPaths.ByServer(creator)];
    }
  }

  /** The part of a server that binds and closes its acceptor. */
  class ServerSocket {
    const runtime: Runtime
    const id: ServerId
    var acceptor: bool
    var boundSocketFilePath: Option<Path>

    ghost function View(): SocketPaths.Socket
      reads this
    {
      SocketPaths.Socket(acceptor, boundSocketFilePath)
    }

    constructor (runtime: Runtime, id: ServerId)
      ensures this.runtime == runtime && this.id == id && View() == SocketPaths.Socket(false, None)
    {
      this.runtime, this.id := runtime, id;
      acceptor, boundSocketFilePath := false, None;
    }

    method CloseAcceptor(cleaned: bool)
      modifies this, runtime
      ensures (runtime.View(), View()) == SocketPaths.CloseAcceptor(old(runtime.View()), old(View()), id, cleaned)
    {
      acceptor := false;
      if boundSocketFilePath.Some? {
        runtime.RemoveSocketFilePathIfOwned(boundSocketFilePath.value, id, cleaned);
        boundSocketFilePath := None;
      }
    }

    /** The bind task, with the path its socket path resolves to during this handler. */
    method Bind(path: Path, removed: bool, cleaned: bool, outcome: SocketPaths.BindOutcome)
      modifies this, runtime
      ensures (runtime.View(), View())
           == SocketPaths.Bind(old(runtime.View()), old(View()), id, path, removed, cleaned, outcome)
    {
      if acceptor {
        return;
      }
      if outcome.EndpointFails? {
        CloseAcceptor(cleaned);
        return;
      }
      runtime.RemoveSocketFilePath(path, id, removed);
      acceptor := true;
      if outcome.OpenFails? {
        CloseAcceptor(cleaned);
        return;
      }
      if outcome.BindFails? {
        CloseAcceptor(cleaned);
        return;
      }
      runtime.CreateSocketFile(path, id);
      boundSocketFilePath := Some(path);
      runtime.SetSocketFilePathOwner(path, id);
      if outcome.ListenFails? {
        CloseAcceptor(cleaned);
        return;
      }
    }
  }
}
