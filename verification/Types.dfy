/** Vocabulary shared by the transaction generator, the object graph and the job engine. */
module Types {

  /** A name of an object.  Several names (aliases) may denote one object. */
  type Name = string

  /** An object of the graph, identified by its main alias. */
  type Obj = Name

  /** Which operation a job carries out. */
  datatype JobType =
    | Start | Verify | Stop | Reload | Restart
    | TryStart | TryRestart | TryReload | ReloadOrStart | RestartOrStart

  /** One bit of an edge's type bitmask. */
  datatype EdgeType =
    | AddStart | AddStartNonreq | AddVerify | AddStop | AddStopNonreq
    | PropagatesStopTo | PropagatesRestartTo | PropagatesReloadTo
    | StartOnStarted | TryStartOnStarted | StopOnStarted | StopOnStopped
    | OnSuccess | OnFailure
    | After | Before

  /** An edge as the transaction generator and the engine see it: its bitmask and the object it leads to. */
  datatype Link = Link(kinds: set<EdgeType>, to: Obj)

  /** The outgoing edges of every object, in list order. */
  type Graph = map<Obj, seq<Link>>

  /** Every edge leads to an object of the graph. */
  ghost predicate Closed(g: Graph) {
    forall o, i :: o in g && 0 <= i < |g[o]| ==> g[o][i].to in g
  }

  /** Object `a` has an After edge to object `b`. */
  ghost predicate Follows(g: Graph, a: Obj, b: Obj) {
    a in g && exists i :: 0 <= i < |g[a]| && After in g[a][i].kinds && g[a][i].to == b
  }
}
