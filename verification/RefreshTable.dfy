/**
 The refresh_token table at READ COMMITTED. A rotation writes its rows and commits them later; a revocation of a
 profile takes a snapshot of the rows to revoke, visits them one after another and commits. What a transaction
 has written is invisible to others until its commit, and holds its rows meanwhile.
 */
module RefreshTable {

  type Token = nat
  type Profile = int
  type Caller = int

  const REFRESH_TTL: int := 30 * 24 * 3600

  datatype Row = Row(profile: Profile, revoked: bool, expiresAt: int)

  /** The successor pair. Random values are fresh, so the refresh token also names the pair. */
  datatype Pair = Pair(access: nat, refresh: Token, profile: Profile)

  /** History: the token it was rotated from (itself for a sign-in), the sign-in its chain goes back to, its owner. */
  datatype Birth = Birth(parent: Token, root: Token, profile: Profile)

  /** A rotation between its first write and its commit. */
  datatype Open = Open(holder: Caller, pair: Pair)

  /** Who revokes: a call that noticed reuse, or something else in the program. */
  datatype Sweeper = OfCall(c: Caller) | Elsewhere(n: nat)

  /** A revocation under way, and the rows of its snapshot it has still to visit. */
  datatype Sweep = Sweep(profile: Profile, left: set<Token>)

  /**
   `rows` is what is committed; `open` are the rows held by rotations, `locked` those held by revocations. `born`,
   `head` (the newest token of each chain), `successor`, `everRevoked` and `reserved` (the token each new one was
   made for) are history.
   */
  datatype Db = Db(
    rows: map<Token, Row>, open: map<Token, Open>, sweeps: map<Sweeper, Sweep>, locked: map<Token, Sweeper>,
    now: int, next: Token,
    born: map<Token, Birth>, head: map<Token, Token>, successor: map<Token, Pair>, everRevoked: set<Token>,
    reserved: map<Token, Token>)

  const NO_ROWS: Db := Db(map[], map[], map[], map[], 0, 0, map[], map[], map[], {}, map[])

  /** The statements that touch the table. */
  datatype DbMove =
    | Nothing
    | Insert(p: Profile)
    | Write(c: Caller, raw: Token, p: Profile)
    | Commit(raw: Token)
    | Rollback(raw: Token)
    | Snapshot(w: Sweeper, p: Profile)
    | Visit(w: Sweeper, t: Token)
    | EndSweep(w: Sweeper, ok: bool)
    | Delete(t: Token)
    | Pass(d: nat)

  // ---------------------------------------------------------------- sign-ins and rotations

  function AddRow(db: Db, t: Token, birth: Birth): Db {
    db.(rows := db.rows[t := Row(birth.profile, false, db.now + REFRESH_TTL)],
        born := db.born[t := birth],
        head := db.head[birth.root := t])
  }

  function SetRevoked(db: Db, t: Token): Db
    requires t in db.rows
  {
    db.(rows := db.rows[t := db.rows[t].(revoked := true)], everRevoked := db.everRevoked + {t})
  }

  predicate Held(db: Db, t: Token) { t in db.open || t in db.locked }

  /** The guard of the rotation's UPDATE, once it has the row. */
  predicate Rotatable(db: Db, raw: Token) {
    raw in db.rows && !Held(db, raw) && !db.rows[raw].revoked && db.now < db.rows[raw].expiresAt
  }

  function NextPair(db: Db, p: Profile): Pair { Pair(db.next, db.next, p) }

  function RootOf(db: Db, t: Token): Token { if t in db.born then db.born[t].root else t }

  /** The UPDATE of the old row and the INSERT of the new one, not yet committed. */
  function WriteRow(db: Db, c: Caller, raw: Token, p: Profile): Db {
    db.(open := db.open[raw := Open(c, NextPair(db, p))], next := db.next + 1, reserved := db.reserved[db.next := raw])
  }

  /** The commit: the old row revoked, its successor there. */
  function CommitRow(db: Db, raw: Token): Db
    requires raw in db.open && raw in db.rows
  {
    var pair := db.open[raw].pair;
    AddRow(SetRevoked(db, raw).(open := db.open - {raw}, successor := db.successor[raw := pair]),
           pair.refresh, Birth(raw, RootOf(db, raw), pair.profile))
  }

  // ---------------------------------------------------------------- revocations

  /** The rows the statement sets out to revoke: committed and unrevoked when it begins, held or not. */
  function SnapshotOf(db: Db, p: Profile): set<Token> {
    set t | t in db.rows && db.rows[t].profile == p && !db.rows[t].revoked
  }

  /** A held row is waited for. */
  predicate MayVisit(db: Db, w: Sweeper, t: Token) { w in db.sweeps && t in db.sweeps[w].left && !Held(db, t) }

  /** The row is looked at again: revoked or gone it is skipped, else it is updated and held. */
  function VisitRow(db: Db, w: Sweeper, t: Token): Db
    requires w in db.sweeps
  {
    var sweep := db.sweeps[w].(left := db.sweeps[w].left - {t});
    db.(sweeps := db.sweeps[w := sweep],
        locked := if t in db.rows && !db.rows[t].revoked then db.locked[t := w] else db.locked)
  }

  predicate LockedBy(db: Db, t: Token, w: Sweeper) { t in db.locked && db.locked[t] == w }

  /** The end of the statement, which commits or rolls back what it has updated. */
  function EndedSweep(db: Db, w: Sweeper, ok: bool): Db {
    db.(rows := map t | t in db.rows :: if ok && LockedBy(db, t, w) then db.rows[t].(revoked := true) else db.rows[t],
        everRevoked := db.everRevoked + (set t | t in db.rows && ok && LockedBy(db, t, w)),
        locked := map t | t in db.locked && db.locked[t] != w :: db.locked[t],
        sweeps := db.sweeps - {w})
  }

  predicate MayEnd(db: Db, w: Sweeper, ok: bool) { w in db.sweeps && (ok ==> db.sweeps[w].left == {}) }

  function ApplyMove(db: Db, move: DbMove): Db {
    match move
    case Nothing => db
    case Insert(p) => AddRow(db.(next := db.next + 1), db.next, Birth(db.next, db.next, p))
    case Write(c, raw, p) => if Rotatable(db, raw) then WriteRow(db, c, raw, p) else db
    case Commit(raw) => if raw in db.open && raw in db.rows then CommitRow(db, raw) else db
    case Rollback(raw) => db.(open := db.open - {raw})
    case Snapshot(w, p) => if w in db.sweeps then db else db.(sweeps := db.sweeps[w := Sweep(p, SnapshotOf(db, p))])
    case Visit(w, t) => if MayVisit(db, w, t) then VisitRow(db, w, t) else db
    case EndSweep(w, ok) => if MayEnd(db, w, ok) then EndedSweep(db, w, ok) else db
    case Delete(t) => if Held(db, t) then db else db.(rows := db.rows - {t})
    case Pass(d) => db.(now := db.now + d)
  }

  // ---------------------------------------------------------------- what the table keeps

  ghost predicate Live(db: Db, t: Token) { t in db.rows && !db.rows[t].revoked }

  ghost predicate Owned(db: Db, t: Token, p: Profile) { t in db.born && db.born[t].profile == p }

  ghost predicate Succeeds(db: Db, t: Token, pair: Pair) {
    && t in db.everRevoked && t in db.born && pair.refresh in db.born
    && db.born[pair.refresh] == Birth(t, db.born[t].root, db.born[t].profile)
    && pair.profile == db.born[t].profile
  }

  ghost predicate RowFits(db: Db, t: Token)
    requires t in db.rows
  {
    && Owned(db, t, db.rows[t].profile)
    && (db.rows[t].revoked <==> t in db.everRevoked)
    && (!db.rows[t].revoked ==> db.born[t].root in db.head && db.head[db.born[t].root] == t)
  }

  /** A row held by a rotation is live, and its new token is its own and not yet there. */
  ghost predicate OpenFits(db: Db, raw: Token)
    requires raw in db.open
  {
    var pair := db.open[raw].pair;
    && Live(db, raw) && raw !in db.locked && pair.profile == db.rows[raw].profile
    && pair.refresh < db.next && pair.refresh !in db.born
    && pair.refresh in db.reserved && db.reserved[pair.refresh] == raw
  }

  /** A row held by a revocation is live, of its profile, and visited. */
  ghost predicate LockFits(db: Db, t: Token)
    requires t in db.locked
  {
    && Live(db, t) && db.locked[t] in db.sweeps
    && db.sweeps[db.locked[t]].profile == db.rows[t].profile && t !in db.sweeps[db.locked[t]].left
  }

  ghost predicate SweepFits(db: Db, w: Sweeper)
    requires w in db.sweeps
  {
    forall t :: t in db.sweeps[w].left ==> Owned(db, t, db.sweeps[w].profile)
  }

  /** The chain of a token goes back to a sign-in of the same owner. */
  ghost predicate RootFits(db: Db, t: Token)
    requires t in db.born
  {
    db.born[t].root in db.born && db.born[db.born[t].root].profile == db.born[t].profile
  }

  ghost predicate HeadFits(db: Db, root: Token)
    requires root in db.head
  {
    db.head[root] in db.born && db.born[db.head[root]].root == root
  }

  ghost predicate HistoryFits(db: Db) {
    && (forall t :: t in db.born ==> t < db.next && db.born[t].root < db.next)
    && (forall t {:trigger RootFits(db, t)} :: t in db.born ==> RootFits(db, t))
    && (forall r {:trigger HeadFits(db, r)} :: r in db.head ==> HeadFits(db, r))
    && (forall t :: t in db.everRevoked ==> t in db.born)
    && (forall t :: t in db.reserved ==> t < db.next)
    && (forall t :: t in db.successor ==> Succeeds(db, t, db.successor[t]))
  }

  ghost predicate HoldsFit(db: Db) {
    && (forall t :: t in db.open ==> OpenFits(db, t))
    && (forall t :: t in db.locked ==> LockFits(db, t))
    && (forall w :: w in db.sweeps ==> SweepFits(db, w))
  }

  ghost predicate RowsFit(db: Db) { forall t :: t in db.rows ==> RowFits(db, t) }

  ghost predicate DbInv(db: Db) { RowsFit(db) && HoldsFit(db) && HistoryFits(db) }

  /** History is only ever added to. */
  ghost predicate Grows(db: Db, db': Db) {
    && db.next <= db'.next && db.everRevoked <= db'.everRevoked
    && (forall t :: t in db.born ==> t in db'.born && db'.born[t] == db.born[t])
    && (forall t :: t in db.successor ==> t in db'.successor && db'.successor[t] == db.successor[t])
  }

  /** Where history only grows, what it says of roots and successors stays. */
  lemma GrowthKeepsHistory(db: Db, r: Db)
    requires HistoryFits(db) && Grows(db, r)
    ensures forall t :: t in db.born ==> RootFits(r, t)
    ensures forall t :: t in db.successor ==> Succeeds(r, t, r.successor[t])
  {
    forall t | t in db.born ensures RootFits(r, t) { assert RootFits(db, t); }
    forall t | t in db.successor ensures Succeeds(r, t, r.successor[t]) { assert Succeeds(db, t, db.successor[t]); }
  }

  lemma HeadStays(db: Db, r: Db, root: Token)
    requires HistoryFits(db) && Grows(db, r) && root in db.head && root in r.head && r.head[root] == db.head[root]
    ensures HeadFits(r, root)
  {
    assert HeadFits(db, root);
  }

  lemma SweepStays(db: Db, r: Db, w: Sweeper)
    requires Grows(db, r) && w in db.sweeps && SweepFits(db, w)
    requires w in r.sweeps && r.sweeps[w].profile == db.sweeps[w].profile && r.sweeps[w].left <= db.sweeps[w].left
    ensures SweepFits(r, w)
  {}

  /** Rows and holds may change, and revoked tokens be added: the rest of history is the same. */
  lemma RevokingKeepsHistory(db: Db, r: Db)
    requires HistoryFits(db)
    requires r == db.(rows := r.rows, open := r.open, sweeps := r.sweeps, locked := r.locked, now := r.now, everRevoked := r.everRevoked)
    requires db.everRevoked <= r.everRevoked && forall t :: t in r.everRevoked ==> t in db.born
    ensures HistoryFits(r) && Grows(db, r)
  {
    forall t {:trigger RootFits(r, t)} | t in r.born ensures RootFits(r, t) { assert RootFits(db, t); }
    forall h {:trigger HeadFits(r, h)} | h in r.head ensures HeadFits(r, h) { assert HeadFits(db, h); }
    forall t | t in r.successor ensures Succeeds(r, t, r.successor[t]) { assert Succeeds(db, t, db.successor[t]); }
  }

  /** Nothing about t changed. */
  lemma SameRowFits(db: Db, r: Db, t: Token)
    requires t in db.rows && RowFits(db, t) && t in r.rows && r.rows[t] == db.rows[t]
    requires Grows(db, r) && (t in r.everRevoked ==> t in db.everRevoked)
    requires !db.rows[t].revoked ==> db.born[t].root in r.head && r.head[db.born[t].root] == t
    ensures RowFits(r, t)
  {}

  // ---------------------------------------------------------------- sign-in

  lemma InsertHistory(db: Db, p: Profile)
    requires DbInv(db)
    ensures HistoryFits(ApplyMove(db, Insert(p))) && Grows(db, ApplyMove(db, Insert(p)))
  {
    var r := ApplyMove(db, Insert(p));
    GrowthKeepsHistory(db, r);
    forall h {:trigger HeadFits(r, h)} | h in r.head ensures HeadFits(r, h) {
      if h != db.next { HeadStays(db, r, h); }
    }
  }

  lemma InsertRow(db: Db, p: Profile, t: Token)
    requires DbInv(db) && t in ApplyMove(db, Insert(p)).rows
    ensures RowFits(ApplyMove(db, Insert(p)), t)
  {
    if t in db.rows { assert RowFits(db, t); }
  }

  lemma InsertHolds(db: Db, p: Profile)
    requires DbInv(db)
    ensures HoldsFit(ApplyMove(db, Insert(p)))
  {
    var r := ApplyMove(db, Insert(p));
    forall t | t in r.open ensures OpenFits(r, t) { assert OpenFits(db, t) && RowFits(db, t); }
    forall t | t in r.locked ensures LockFits(r, t) { assert LockFits(db, t) && RowFits(db, t); }
    forall w | w in r.sweeps ensures SweepFits(r, w) { assert SweepFits(db, w); }
  }

  lemma InsertKeepsDb(db: Db, p: Profile)
    requires DbInv(db)
    ensures DbInv(ApplyMove(db, Insert(p))) && Grows(db, ApplyMove(db, Insert(p)))
  {
    InsertHistory(db, p);
    InsertHolds(db, p);
    var r := ApplyMove(db, Insert(p));
    forall t | t in r.rows ensures RowFits(r, t) { InsertRow(db, p, t); }
  }

  // ---------------------------------------------------------------- the rotation's first write

  lemma WriteOpens(db: Db, c: Caller, raw: Token, p: Profile, t: Token)
    requires DbInv(db) && Rotatable(db, raw) && db.rows[raw].profile == p && t in WriteRow(db, c, raw, p).open
    ensures OpenFits(WriteRow(db, c, raw, p), t)
  {
    if t != raw { assert OpenFits(db, t); }
  }

  lemma WriteHistory(db: Db, c: Caller, raw: Token, p: Profile)
    requires DbInv(db)
    ensures HistoryFits(WriteRow(db, c, raw, p)) && Grows(db, WriteRow(db, c, raw, p))
  {
    var r := WriteRow(db, c, raw, p);
    GrowthKeepsHistory(db, r);
    forall h {:trigger HeadFits(r, h)} | h in r.head ensures HeadFits(r, h) { HeadStays(db, r, h); }
  }

  lemma WriteKeepsDb(db: Db, c: Caller, raw: Token, p: Profile)
    requires DbInv(db) && Rotatable(db, raw) && db.rows[raw].profile == p
    ensures DbInv(WriteRow(db, c, raw, p)) && Grows(db, WriteRow(db, c, raw, p))
  {
    var r := WriteRow(db, c, raw, p);
    WriteHistory(db, c, raw, p);
    forall t | t in r.rows ensures RowFits(r, t) { assert RowFits(db, t); SameRowFits(db, r, t); }
    forall t | t in r.open ensures OpenFits(r, t) { WriteOpens(db, c, raw, p, t); }
    forall t | t in r.locked ensures LockFits(r, t) { assert LockFits(db, t); }
    forall w | w in r.sweeps ensures SweepFits(r, w) { assert SweepFits(db, w); SweepStays(db, r, w); }
  }

  // ---------------------------------------------------------------- its commit

  lemma CommitGrows(db: Db, raw: Token)
    requires DbInv(db) && raw in db.open
    ensures raw in db.rows && Grows(db, CommitRow(db, raw))
  {
    assert OpenFits(db, raw) && RowFits(db, raw);
    forall t | t in db.successor ensures t != raw { assert Succeeds(db, t, db.successor[t]); }
  }

  lemma CommitHeads(db: Db, raw: Token, h: Token)
    requires DbInv(db) && raw in db.open && raw in db.rows && Grows(db, CommitRow(db, raw)) && h in CommitRow(db, raw).head
    ensures HeadFits(CommitRow(db, raw), h)
  {
    assert OpenFits(db, raw) && RowFits(db, raw);
    if h != db.born[raw].root { HeadStays(db, CommitRow(db, raw), h); }
  }

  lemma CommitBirths(db: Db, raw: Token)
    requires DbInv(db) && raw in db.open && raw in db.rows && Grows(db, CommitRow(db, raw))
    ensures var r := CommitRow(db, raw);
            && (forall t :: t in r.born ==> t < r.next && r.born[t].root < r.next)
            && (forall t {:trigger RootFits(r, t)} :: t in r.born ==> RootFits(r, t))
  {
    assert OpenFits(db, raw) && RowFits(db, raw) && RootFits(db, raw);
    GrowthKeepsHistory(db, CommitRow(db, raw));
  }

  lemma CommitSuccessors(db: Db, raw: Token, t: Token)
    requires DbInv(db) && raw in db.open && raw in db.rows && Grows(db, CommitRow(db, raw)) && t in CommitRow(db, raw).successor
    ensures Succeeds(CommitRow(db, raw), t, CommitRow(db, raw).successor[t])
  {
    assert OpenFits(db, raw) && RowFits(db, raw);
    if t != raw { assert Succeeds(db, t, db.successor[t]); }
  }

  lemma CommitHistory(db: Db, raw: Token)
    requires DbInv(db) && raw in db.open && raw in db.rows && Grows(db, CommitRow(db, raw))
    ensures HistoryFits(CommitRow(db, raw))
  {
    var r := CommitRow(db, raw);
    assert RowFits(db, raw);
    CommitBirths(db, raw);
    forall h {:trigger HeadFits(r, h)} | h in r.head ensures HeadFits(r, h) { CommitHeads(db, raw, h); }
    forall t | t in r.successor ensures Succeeds(r, t, r.successor[t]) { CommitSuccessors(db, raw, t); }
  }

  lemma CommitRows(db: Db, raw: Token, t: Token)
    requires DbInv(db) && raw in db.open && raw in db.rows && t in CommitRow(db, raw).rows
    ensures RowFits(CommitRow(db, raw), t)
  {
    assert OpenFits(db, raw) && RowFits(db, raw);
    if t in db.rows { assert RowFits(db, t); }
  }

  lemma CommitHolds(db: Db, raw: Token)
    requires DbInv(db) && raw in db.open && raw in db.rows && Grows(db, CommitRow(db, raw))
    ensures HoldsFit(CommitRow(db, raw))
  {
    var r := CommitRow(db, raw);
    assert OpenFits(db, raw);
    forall t | t in r.open ensures OpenFits(r, t) { assert OpenFits(db, t) && RowFits(db, t); }
    forall t | t in r.locked ensures LockFits(r, t) { assert LockFits(db, t) && RowFits(db, t); }
    forall w | w in r.sweeps ensures SweepFits(r, w) { assert SweepFits(db, w); SweepStays(db, r, w); }
  }

  lemma CommitKeepsDb(db: Db, raw: Token)
    requires DbInv(db) && raw in db.open
    ensures raw in db.rows
    ensures DbInv(CommitRow(db, raw)) && Grows(db, CommitRow(db, raw))
  {
    CommitGrows(db, raw);
    CommitHistory(db, raw);
    CommitHolds(db, raw);
    var r := CommitRow(db, raw);
    forall t | t in r.rows ensures RowFits(r, t) { CommitRows(db, raw, t); }
  }

  // ---------------------------------------------------------------- revocations and the rest

  /** Holds change, or rows disappear that nobody holds. */
  lemma HoldingKeepsDb(db: Db, r: Db)
    requires DbInv(db) && r == db.(rows := r.rows, open := r.open, sweeps := r.sweeps, locked := r.locked, now := r.now)
    requires forall t :: t in r.rows ==> t in db.rows && r.rows[t] == db.rows[t]
    requires HoldsFit(r)
    ensures DbInv(r) && Grows(db, r)
  {
    RevokingKeepsHistory(db, r);
    forall t | t in r.rows ensures RowFits(r, t) { assert RowFits(db, t); SameRowFits(db, r, t); }
  }

  lemma RollbackHolds(db: Db, raw: Token)
    requires DbInv(db)
    ensures HoldsFit(ApplyMove(db, Rollback(raw)))
  {
    var r := ApplyMove(db, Rollback(raw));
    forall t | t in r.open ensures OpenFits(r, t) { assert OpenFits(db, t); }
    forall t | t in r.locked ensures LockFits(r, t) { assert LockFits(db, t); }
    forall w | w in r.sweeps ensures SweepFits(r, w) { assert SweepFits(db, w); }
  }

  /** Where a change spares a row and its holder, the hold still fits. */
  lemma SameOpenFits(db: Db, r: Db, t: Token)
    requires t in db.open && OpenFits(db, t) && t in r.open && r.open[t] == db.open[t] && Live(r, t) && t !in r.locked
    requires r.rows[t].profile == db.rows[t].profile && r.next == db.next && r.born == db.born && r.reserved == db.reserved
    ensures OpenFits(r, t)
  {}

  lemma SameLockFits(db: Db, r: Db, t: Token)
    requires t in db.locked && LockFits(db, t) && t in r.locked && r.locked[t] == db.locked[t] && Live(r, t)
    requires r.rows[t].profile == db.rows[t].profile
    requires db.locked[t] in r.sweeps && r.sweeps[db.locked[t]].profile == db.sweeps[db.locked[t]].profile
    requires r.sweeps[db.locked[t]].left <= db.sweeps[db.locked[t]].left
    ensures LockFits(r, t)
  {}

  lemma SnapshotHolds(db: Db, w: Sweeper, p: Profile)
    requires DbInv(db) && w !in db.sweeps
    ensures HoldsFit(ApplyMove(db, Snapshot(w, p)))
  {
    var r := ApplyMove(db, Snapshot(w, p));
    SnapshotIsOwned(db, p);
    forall t | t in r.open ensures OpenFits(r, t) { assert OpenFits(db, t); SameOpenFits(db, r, t); }
    forall t | t in r.locked ensures LockFits(r, t) { assert LockFits(db, t); SameLockFits(db, r, t); }
    forall v | v in r.sweeps ensures SweepFits(r, v) {
      if v != w { assert SweepFits(db, v); }
    }
  }

  lemma SnapshotIsOwned(db: Db, p: Profile)
    requires DbInv(db)
    ensures forall t :: t in SnapshotOf(db, p) ==> Owned(db, t, p)
  {
    forall t | t in SnapshotOf(db, p) ensures Owned(db, t, p) { assert RowFits(db, t); }
  }

  lemma VisitHolds(db: Db, w: Sweeper, t: Token)
    requires DbInv(db) && MayVisit(db, w, t)
    ensures HoldsFit(VisitRow(db, w, t))
  {
    var r := VisitRow(db, w, t);
    assert SweepFits(db, w);
    if t in db.rows { assert RowFits(db, t); }
    forall u | u in r.open ensures OpenFits(r, u) { assert OpenFits(db, u); }
    forall u | u in r.locked ensures LockFits(r, u) {
      if u in db.locked { assert LockFits(db, u); }
    }
    forall v | v in r.sweeps ensures SweepFits(r, v) { assert SweepFits(db, v); }
  }

  lemma EndHolds(db: Db, w: Sweeper, ok: bool)
    requires DbInv(db) && w in db.sweeps
    ensures HoldsFit(EndedSweep(db, w, ok))
  {
    var r := EndedSweep(db, w, ok);
    forall t | t in r.open ensures OpenFits(r, t) { assert OpenFits(db, t); }
    forall t | t in r.locked ensures LockFits(r, t) { assert LockFits(db, t); }
    forall v | v in r.sweeps ensures SweepFits(r, v) { assert SweepFits(db, v); }
  }

  lemma EndRow(db: Db, w: Sweeper, ok: bool, t: Token)
    requires DbInv(db) && t in db.rows
    ensures RowFits(EndedSweep(db, w, ok), t)
  {
    assert RowFits(db, t);
  }

  lemma EndKeepsDb(db: Db, w: Sweeper, ok: bool)
    requires DbInv(db) && w in db.sweeps
    ensures DbInv(EndedSweep(db, w, ok)) && Grows(db, EndedSweep(db, w, ok))
  {
    var r := EndedSweep(db, w, ok);
    forall t | t in r.everRevoked ensures t in db.born {
      if t in db.rows { assert RowFits(db, t); }
    }
    RevokingKeepsHistory(db, r);
    EndHolds(db, w, ok);
    forall t | t in r.rows ensures RowFits(r, t) { EndRow(db, w, ok, t); }
  }

  lemma DeleteHolds(db: Db, t: Token)
    requires DbInv(db) && !Held(db, t)
    ensures HoldsFit(db.(rows := db.rows - {t}))
  {
    var r := db.(rows := db.rows - {t});
    forall u | u in r.open ensures OpenFits(r, u) { assert OpenFits(db, u); SameOpenFits(db, r, u); }
    forall u | u in r.locked ensures LockFits(r, u) { assert LockFits(db, u); SameLockFits(db, r, u); }
    forall w | w in r.sweeps ensures SweepFits(r, w) { assert SweepFits(db, w); }
  }

  lemma PassHolds(db: Db, d: nat)
    requires DbInv(db)
    ensures HoldsFit(ApplyMove(db, Pass(d)))
  {
    var r := ApplyMove(db, Pass(d));
    forall u | u in r.open ensures OpenFits(r, u) { assert OpenFits(db, u); }
    forall u | u in r.locked ensures LockFits(r, u) { assert LockFits(db, u); }
    forall w | w in r.sweeps ensures SweepFits(r, w) { assert SweepFits(db, w); }
  }

  lemma RollbackKeepsDb(db: Db, raw: Token)
    requires DbInv(db)
    ensures DbInv(ApplyMove(db, Rollback(raw))) && Grows(db, ApplyMove(db, Rollback(raw)))
  {
    RollbackHolds(db, raw);
    HoldingKeepsDb(db, ApplyMove(db, Rollback(raw)));
  }

  lemma SnapshotKeepsDb(db: Db, w: Sweeper, p: Profile)
    requires DbInv(db)
    ensures DbInv(ApplyMove(db, Snapshot(w, p))) && Grows(db, ApplyMove(db, Snapshot(w, p)))
  {
    if w !in db.sweeps {
      SnapshotHolds(db, w, p);
      HoldingKeepsDb(db, ApplyMove(db, Snapshot(w, p)));
    }
  }

  lemma VisitKeepsDb(db: Db, w: Sweeper, t: Token)
    requires DbInv(db)
    ensures DbInv(ApplyMove(db, Visit(w, t))) && Grows(db, ApplyMove(db, Visit(w, t)))
  {
    if MayVisit(db, w, t) {
      VisitHolds(db, w, t);
      HoldingKeepsDb(db, VisitRow(db, w, t));
    }
  }

  lemma DeleteKeepsDb(db: Db, t: Token)
    requires DbInv(db)
    ensures DbInv(ApplyMove(db, Delete(t))) && Grows(db, ApplyMove(db, Delete(t)))
  {
    if !Held(db, t) {
      DeleteHolds(db, t);
      HoldingKeepsDb(db, db.(rows := db.rows - {t}));
    }
  }

  lemma PassKeepsDb(db: Db, d: nat)
    requires DbInv(db)
    ensures DbInv(ApplyMove(db, Pass(d))) && Grows(db, ApplyMove(db, Pass(d)))
  {
    PassHolds(db, d);
    HoldingKeepsDb(db, ApplyMove(db, Pass(d)));
  }

  /** A rotation writes for the profile of its row. */
  ghost predicate MoveFits(db: Db, move: DbMove) {
    move.Write? && Rotatable(db, move.raw) ==> db.rows[move.raw].profile == move.p
  }

  lemma MoveKeepsDb(db: Db, move: DbMove)
    requires DbInv(db) && MoveFits(db, move)
    ensures DbInv(ApplyMove(db, move)) && Grows(db, ApplyMove(db, move))
  {
    match move
    case Nothing =>
    case Insert(p) => InsertKeepsDb(db, p);
    case Write(c, raw, p) => if Rotatable(db, raw) { WriteKeepsDb(db, c, raw, p); }
    case Commit(raw) => if raw in db.open { CommitKeepsDb(db, raw); }
    case Rollback(raw) => RollbackKeepsDb(db, raw);
    case Snapshot(w, p) => SnapshotKeepsDb(db, w, p);
    case Visit(w, t) => VisitKeepsDb(db, w, t);
    case EndSweep(w, ok) => if MayEnd(db, w, ok) { EndKeepsDb(db, w, ok); }
    case Delete(t) => DeleteKeepsDb(db, t);
    case Pass(d) => PassKeepsDb(db, d);
  }
}
