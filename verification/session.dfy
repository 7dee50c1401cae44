/** The database session (class RDS): which tables exist, create-if-absent,
    the auto-commit flag, and the commit/rollback decision taken when the
    session's `with` block exits. */
module Session {
  import opened Records

  /** The two tables the pipeline uses, under their default names
      candle_sticks and last_update. */
  datatype TableName = CandleSticks | LastUpdate

  /** The database as the pipeline sees it; a table that has not been created
      is `None`. */
  datatype Store = Store(candles: Option<CandleTable>, marks: Option<MarkTable>)

  /** The tables that list_tables would report. */
  function Listed(s: Store): (names: set<TableName>)
    ensures CandleSticks in names <==> s.candles.Some?
    ensures LastUpdate in names <==> s.marks.Some?
  {
    (if s.candles.Some? then {CandleSticks} else {}) + (if s.marks.Some? then {LastUpdate} else {})
  }

  /** Creates an empty table unless the name is already listed, in which
      case nothing happens. */
  function CreateTable(s: Store, name: TableName): (r: Store)
    ensures Listed(r) == Listed(s) + {name}
    ensures name in Listed(s) ==> r == s
    ensures name !in Listed(s) && name == CandleSticks ==> r.candles == Some(map[])
    ensures name !in Listed(s) && name == LastUpdate ==> r.marks == Some(map[])
    ensures name != CandleSticks ==> r.candles == s.candles
    ensures name != LastUpdate ==> r.marks == s.marks
  {
    if name in Listed(s) then s
    else match name
      case CandleSticks => s.(candles := Some(map[]))
      case LastUpdate => s.(marks := Some(map[]))
  }

  /** Creating a table twice is creating it once. */
  lemma CreateTableIdempotent(s: Store, name: TableName)
    ensures CreateTable(CreateTable(s, name), name) == CreateTable(s, name)
  {
  }

  /** What the session does with the open transaction when its block exits. */
  datatype ExitAction =
    | Disconnected   // no connection or cursor: nothing to do
    | Committed
    | LeftUncommitted // auto-commit switched off: neither commit nor rollback
    | RolledBack

  function ExitDecision(connected: bool, raised: bool, commit: bool): (a: ExitAction)
    ensures a == Disconnected <==> !connected
    ensures a == Committed <==> connected && !raised && commit
    ensures a == LeftUncommitted <==> connected && !commit
    ensures a == RolledBack <==> connected && raised && commit
  {
    if !connected then Disconnected
    else if !raised && commit then Committed
    else if !commit then LeftUncommitted
    else RolledBack
  }

  /** An open session: whether connecting succeeded, the auto-commit flag,
      the committed database, and the database as the open transaction sees it. */
  datatype Session = Session(connected: bool, commit: bool, durable: Store, pending: Store)

  /** Constructing a fresh session object and entering its `with` block, as
      every caller does: the constructor sets the flag to true, entering
      leaves it alone, and nothing is pending yet. */
  function Open(connected: bool, durable: Store): (s: Session)
    ensures s.commit
    ensures s.durable == s.pending == durable
  {
    Session(connected, true, durable, durable)
  }

  function SetCommit(s: Session, commit: bool): (r: Session)
    ensures r.commit == commit
    ensures r.connected == s.connected && r.durable == s.durable && r.pending == s.pending
  {
    s.(commit := commit)
  }

  /** The committed database once the block has exited. Closing a connection
      without committing discards the open transaction, so only a commit makes
      the pending changes durable. */
  function Close(s: Session, raised: bool): (durable: Store)
    ensures ExitDecision(s.connected, raised, s.commit) == Committed ==> durable == s.pending
    ensures ExitDecision(s.connected, raised, s.commit) != Committed ==> durable == s.durable
  {
    match ExitDecision(s.connected, raised, s.commit)
    case Committed => s.pending
    case _ => s.durable
  }

  /** A block that raised never changes the committed database. */
  lemma RaisedBlockChangesNothing(s: Session)
    ensures Close(s, true) == s.durable
  {
  }

  /** With auto-commit switched off the committed database never changes. */
  lemma NoCommitChangesNothing(s: Session, raised: bool)
    ensures Close(SetCommit(s, false), raised) == s.durable
  {
  }

  /** A connected session whose block finished normally, with the flag left
      at its initial value, makes the pending work durable. */
  lemma CleanExitCommits(durable: Store, pending: Store)
    ensures Close(Open(true, durable).(pending := pending), false) == pending
  {
  }
}
