/**
 Ports, links and transactions (alembic/versions/pt1_port_topology.py) on top of the item tree.

 Statements run inside a transaction; the two constraint triggers only queue the item they are
 about, and the queue is checked at COMMIT.  A statement that raises aborts its transaction.
 */
module PortTopology {
  import opened Common
  import opened PlantGraph

  datatype Port = Port(company: Id, item: Id)
  datatype Link = Link(company: Id, upItem: Id, upPort: Id, downItem: Id, downPort: Option<Id>)
  datatype Db = Db(items: Items, ports: map<Id, Port>, links: map<Id, Link>)

  datatype DbError =
    | Graph(e: GraphError)
    | ItemPortItem | LinkUpPort | LinkDownItem | LinkDownPort
    | LinkUpPortTaken | LinkDownPortTaken | LinkDownItemTaken | LinkSelf
    | PrimaryKey | ParentMismatch | InFailedTransaction

  datatype Statement =
    | InsertItem(id: Id, item: Item)
    | UpdateItem(id: Id, parent: Option<Option<Id>>, attached: Option<bool>)
    | DeleteItem(id: Id)
    | InsertPort(id: Id, port: Port)
    | UpdatePort(id: Id, port: Port)
    | DeletePort(id: Id)
    | InsertLink(id: Id, link: Link)
    | UpdateLink(id: Id, link: Link)
    | DeleteLink(id: Id)

  /** The database after a statement, and the items its triggers put in the queue. */
  datatype Effect = Effect(db: Db, queued: set<Id>)

  /* ---------- Constraints ---------- */

  /** fk_item_port_item */
  predicate PortKey(items: Items, p: Port) {
    p.item in items && items[p.item].company == p.company
  }

  /** fk_link_up_port, fk_link_down_item, fk_link_down_port and ck_link_not_self of one link. */
  predicate LinkKeys(items: Items, ports: map<Id, Port>, l: Link) {
    && l.upPort in ports && ports[l.upPort] == Port(l.company, l.upItem)
    && l.downItem in items && items[l.downItem].company == l.company
    && (l.downPort.Some? ==> l.downPort.value in ports && ports[l.downPort.value] == Port(l.company, l.downItem))
    && l.upItem != l.downItem
  }

  /** The three unique keys, between two links. */
  predicate LinksCompatible(l: Link, m: Link) {
    && l.upPort != m.upPort
    && l.downItem != m.downItem
    && (l.downPort.Some? ==> l.downPort != m.downPort)
  }

  ghost predicate LinksOk(db: Db) {
    && (forall i | i in db.ports :: PortKey(db.items, db.ports[i]))
    && (forall i | i in db.links :: LinkKeys(db.items, db.ports, db.links[i]))
    && (forall i, j | i in db.links && j in db.links && i != j :: LinksCompatible(db.links[i], db.links[j]))
  }

  ghost predicate DbOk(db: Db) {
    PlantOk(db.items) && LinksOk(db)
  }

  /** The device at the lower end hangs from the device at the upper end. */
  predicate LinkAgrees(items: Items, l: Link) {
    l.downItem in items && items[l.downItem].parent == Some(l.upItem)
  }

  ghost predicate Agrees(db: Db) {
    forall i | i in db.links :: LinkAgrees(db.items, db.links[i])
  }

  /** `network_link_assert_parent`: what the two deferred triggers check about one item. */
  predicate ParentAsserted(db: Db, item: Id) {
    forall i | i in db.links && db.links[i].downItem == item && item in db.items ::
      LinkAgrees(db.items, db.links[i])
  }

  /** Every link that disagrees is about an item in the queue. */
  ghost predicate MismatchesQueued(db: Db, queue: set<Id>) {
    forall i | i in db.links && !LinkAgrees(db.items, db.links[i]) :: db.links[i].downItem in queue
  }

  /* ---------- Statements ---------- */

  /** The first constraint a new or changed link row violates, next to the `others`. */
  function LinkViolation(db: Db, id: Id, l: Link): Option<DbError> {
    if l.upItem == l.downItem then Some(LinkSelf)
    else if exists j :: j in db.links && j != id && db.links[j].upPort == l.upPort then Some(LinkUpPortTaken)
    else if exists j :: j in db.links && j != id && l.downPort.Some? && db.links[j].downPort == l.downPort then
      Some(LinkDownPortTaken)
    else if exists j :: j in db.links && j != id && db.links[j].downItem == l.downItem then Some(LinkDownItemTaken)
    else if l.upPort !in db.ports || db.ports[l.upPort] != Port(l.company, l.upItem) then Some(LinkUpPort)
    else if l.downItem !in db.items || db.items[l.downItem].company != l.company then Some(LinkDownItem)
    else if l.downPort.Some? && (l.downPort.value !in db.ports || db.ports[l.downPort.value] != Port(l.company, l.downItem)) then
      Some(LinkDownPort)
    else None
  }

  /** A NO ACTION key of some link still names the port. */
  function PortUse(links: map<Id, Link>, port: Id): Option<DbError> {
    if exists i :: i in links && links[i].upPort == port then Some(LinkUpPort)
    else if exists i :: i in links && links[i].downPort == Some(port) then Some(LinkDownPort)
    else None
  }

  /** What a DELETE of one item leaves once the cascades to its ports and to its own link are done. */
  function Cascaded(db: Db, id: Id): Db {
    Db(db.items - {id},
       map i | i in db.ports && db.ports[i].item != id :: db.ports[i],
       map i | i in db.links && db.links[i].downItem != id :: db.links[i])
  }

  function DeleteItemEffect(db: Db, id: Id): Result<Effect, DbError> {
    match PlantGraph.DeleteItem(db.items, id)
    case Err(e) => Err(Graph(e))
    case Ok(_) =>
      if id !in db.items then Ok(Effect(db, {}))
      else
        var after := Cascaded(db, id);
        // NO ACTION keys, checked after the cascades
        if exists i :: i in after.links && after.links[i].upPort !in after.ports then Err(LinkUpPort)
        else if exists i :: i in after.links && after.links[i].downPort.Some? && after.links[i].downPort.value !in after.ports then
          Err(LinkDownPort)
        else Ok(Effect(after, {}))
  }

  function Perform(db: Db, s: Statement): Result<Effect, DbError> {
    match s
    case InsertItem(id, item) =>
      (match PlantGraph.InsertItem(db.items, id, item)
       case Err(e) => Err(Graph(e))
       case Ok(items) => Ok(Effect(db.(items := items), {})))
    case UpdateItem(id, parent, attached) =>
      (match PlantGraph.UpdateItem(db.items, id, parent, attached)
       case Err(e) => Err(Graph(e))
       case Ok(items) => Ok(Effect(db.(items := items), if id in db.items && parent.Some? then {id} else {})))
    case DeleteItem(id) =>
      DeleteItemEffect(db, id)
    case InsertPort(id, port) =>
      if id in db.ports then Err(PrimaryKey)
      else if !PortKey(db.items, port) then Err(ItemPortItem)
      else Ok(Effect(db.(ports := db.ports[id := port]), {}))
    case UpdatePort(id, port) =>
      if id !in db.ports then Ok(Effect(db, {}))
      else if !PortKey(db.items, port) then Err(ItemPortItem)
      else if db.ports[id] != port && PortUse(db.links, id).Some? then Err(PortUse(db.links, id).value)
      else Ok(Effect(db.(ports := db.ports[id := port]), {}))
    case DeletePort(id) =>
      if id !in db.ports then Ok(Effect(db, {}))
      else if PortUse(db.links, id).Some? then Err(PortUse(db.links, id).value)
      else Ok(Effect(db.(ports := db.ports - {id}), {}))
    case InsertLink(id, link) =>
      if id in db.links then Err(PrimaryKey)
      else if LinkViolation(db, id, link).Some? then Err(LinkViolation(db, id, link).value)
      else Ok(Effect(db.(links := db.links[id := link]), {link.downItem}))
    case UpdateLink(id, link) =>
      if id !in db.links then Ok(Effect(db, {}))
      else if LinkViolation(db, id, link).Some? then Err(LinkViolation(db, id, link).value)
      else Ok(Effect(db.(links := db.links[id := link]), {link.downItem}))
    case DeleteLink(id) =>
      Ok(Effect(db.(links := db.links - {id}), {}))
  }

  /* ---------- What one statement keeps ---------- */

  lemma PerformKeepsPlant(db: Db, s: Statement)
    requires PlantOk(db.items) && Perform(db, s).Ok?
    ensures PlantOk(Perform(db, s).value.db.items)
  {
    match s {
      case InsertItem(id, item) => InsertKeepsPlant(db.items, id, item);
      case UpdateItem(id, parent, attached) => UpdateKeepsPlant(db.items, id, parent, attached);
      case DeleteItem(id) => DeleteKeepsPlant(db.items, id);
      case _ =>
    }
  }

  lemma DeleteKeepsLinks(db: Db, id: Id)
    requires LinksOk(db) && DeleteItemEffect(db, id).Ok?
    ensures LinksOk(DeleteItemEffect(db, id).value.db)
  {
    var after := DeleteItemEffect(db, id).value.db;
    forall i | i in after.links ensures LinkKeys(after.items, after.ports, after.links[i]) {
      assert LinkKeys(db.items, db.ports, db.links[i]);
    }
    forall i | i in after.ports ensures PortKey(after.items, after.ports[i]) {
      assert PortKey(db.items, db.ports[i]);
    }
  }

  lemma PutLinkKeepsLinks(db: Db, id: Id, link: Link)
    requires LinksOk(db) && LinkViolation(db, id, link).None?
    ensures LinksOk(db.(links := db.links[id := link]))
  {
  }

  lemma PutPortKeepsLinks(db: Db, id: Id, port: Port)
    requires LinksOk(db) && PortKey(db.items, port)
    requires (id in db.ports && db.ports[id] == port) || PortUse(db.links, id).None?
    ensures LinksOk(db.(ports := db.ports[id := port]))
  {
    var ports := db.ports[id := port];
    forall i | i in db.links ensures LinkKeys(db.items, ports, db.links[i]) {
      assert LinkKeys(db.items, db.ports, db.links[i]);
    }
  }

  lemma PerformKeepsLinks(db: Db, s: Statement)
    requires LinksOk(db) && Perform(db, s).Ok?
    ensures LinksOk(Perform(db, s).value.db)
  {
    var after := Perform(db, s).value.db;
    match s {
      case InsertItem(id, item) =>
      case UpdateItem(id, parent, attached) =>
      case DeleteItem(id) => DeleteKeepsLinks(db, id);
      case InsertPort(id, port) =>
        forall i | i in db.links ensures db.links[i].upPort != id && db.links[i].downPort != Some(id) {
          assert LinkKeys(db.items, db.ports, db.links[i]);
        }
        PutPortKeepsLinks(db, id, port);
      case UpdatePort(id, port) =>
        if id in db.ports {
          PutPortKeepsLinks(db, id, port);
        }
      case DeletePort(id) =>
        forall i | i in after.links ensures LinkKeys(after.items, after.ports, after.links[i]) {
          assert LinkKeys(db.items, db.ports, db.links[i]);
        }
      case InsertLink(id, link) => PutLinkKeepsLinks(db, id, link);
      case UpdateLink(id, link) =>
        if id in db.links {
          PutLinkKeepsLinks(db, id, link);
        }
      case DeleteLink(id) =>
    }
  }

  /** The triggers queue every item whose link a statement can put out of step. */
  lemma PerformQueuesMismatches(db: Db, s: Statement, queue: set<Id>)
    requires LinksOk(db) && MismatchesQueued(db, queue) && Perform(db, s).Ok?
    ensures MismatchesQueued(Perform(db, s).value.db, queue + Perform(db, s).value.queued)
  {
    var effect := Perform(db, s).value;
    forall i | i in effect.db.links && !LinkAgrees(effect.db.items, effect.db.links[i])
      ensures effect.db.links[i].downItem in queue + effect.queued
    {
      var l := effect.db.links[i];
      if i in db.links && db.links[i] == l {
        assert LinkKeys(db.items, db.ports, l);
      }
    }
  }

  /* ---------- What one statement accepts ---------- */

  /** The parent of `row` is one that the graph guard lets through. */
  ghost predicate ParentFits(items: Items, id: Id, row: Item) {
    row.parent.Some? ==>
      var p := row.parent.value;
      && p in items && items[p].company == row.company && items[p].attached
      && p != id && !OnChain(items, p, id) && Rooted(items, p, MAX_PATH_DEPTH - 1)
  }

  /** The row an UPDATE makes of `before`; a column outside the SET list keeps its value. */
  function Changed(before: Item, parent: Option<Option<Id>>, attached: Option<bool>): Item {
    Item(before.company, match parent case Some(p) => p case None => before.parent,
         match attached case Some(a) => a case None => before.attached)
  }

  /** Adding or replacing one row leaves every key, unique constraint and CHECK satisfied. */
  ghost predicate PortRowFits(db: Db, id: Id, port: Port) {
    LinksOk(db.(ports := db.ports[id := port]))
  }

  ghost predicate LinkRowFits(db: Db, id: Id, link: Link) {
    LinksOk(db.(links := db.links[id := link]))
  }

  /** When a statement may go through, said of the rows alone. */
  ghost predicate Acceptable(db: Db, s: Statement) {
    match s
    case InsertItem(id, item) =>
      id !in db.items && ParentFits(db.items, id, item) && (item.parent.Some? ==> item.attached)
    case UpdateItem(id, parent, attached) =>
      id in db.items ==>
        var row := Changed(db.items[id], parent, attached);
        && (parent.Some? ==> ParentFits(db.items, id, row))
        && (row.parent.Some? ==> row.attached)
        && (db.items[id].attached && !row.attached ==> !HasChild(db.items, id))
    case DeleteItem(id) => id in db.items ==> !HasChild(db.items, id) && forall i | i in db.links :: db.links[i].upItem != id
    case InsertPort(id, port) => id !in db.ports && PortRowFits(db, id, port)
    case UpdatePort(id, port) => id in db.ports ==> PortRowFits(db, id, port)
    case DeletePort(id) =>
      forall i | i in db.links :: db.links[i].upPort != id && db.links[i].downPort != Some(id)
    case InsertLink(id, link) => id !in db.links && LinkRowFits(db, id, link)
    case UpdateLink(id, link) => id in db.links ==> LinkRowFits(db, id, link)
    case DeleteLink(_) => true
  }

  lemma GuardFitsIff(items: Items, id: Id, row: Item)
    requires PlantOk(items)
    ensures GuardVerdict(items, id, row) == None <==> ParentFits(items, id, row)
  {
    if row.parent.Some? {
      GuardAcceptsIff(items, id, row);
    }
  }

  lemma PortAcceptedIff(db: Db, id: Id, port: Port)
    requires LinksOk(db)
    ensures Perform(db, InsertPort(id, port)).Ok? <==> Acceptable(db, InsertPort(id, port))
    ensures Perform(db, UpdatePort(id, port)).Ok? <==> Acceptable(db, UpdatePort(id, port))
  {
    var after := db.(ports := db.ports[id := port]);
    if PortKey(db.items, port) && (id !in db.ports || db.ports[id] == port || PortUse(db.links, id).None?) {
      PutPortKeepsLinks(db, id, port);
    }
    if LinksOk(after) {
      assert PortKey(after.items, after.ports[id]);
      UsedPortStays(db, id, port);
    }
  }

  lemma UsedPortStays(db: Db, id: Id, port: Port)
    requires LinksOk(db) && PortRowFits(db, id, port)
    ensures id in db.ports && PortUse(db.links, id).Some? ==> db.ports[id] == port
  {
    var after := db.(ports := db.ports[id := port]);
    forall i | i in db.links && (db.links[i].upPort == id || db.links[i].downPort == Some(id)) && id in db.ports
      ensures db.ports[id] == port
    {
      assert LinkKeys(db.items, db.ports, db.links[i]) && LinkKeys(after.items, after.ports, after.links[i]);
    }
  }

  lemma LinkAcceptedIff(db: Db, id: Id, link: Link)
    requires LinksOk(db)
    ensures LinkViolation(db, id, link).None? <==> LinkRowFits(db, id, link)
  {
    var after := db.(links := db.links[id := link]);
    if LinkViolation(db, id, link).None? {
      PutLinkKeepsLinks(db, id, link);
    }
    if LinksOk(after) {
      assert LinkKeys(after.items, after.ports, after.links[id]);
      forall j | j in db.links && j != id ensures LinksCompatible(link, db.links[j]) {
        assert LinksCompatible(after.links[id], after.links[j]);
      }
    }
  }

  /** A statement goes through exactly when the rows it leaves satisfy the guards and every constraint. */
  lemma PerformAcceptsIff(db: Db, s: Statement)
    requires DbOk(db)
    ensures Perform(db, s).Ok? <==> Acceptable(db, s)
  {
    match s
    case InsertItem(id, item) => GuardFitsIff(db.items, id, item);
    case UpdateItem(id, parent, attached) =>
      if id in db.items {
        GuardFitsIff(db.items, id, Changed(db.items[id], parent, attached));
      }
    case DeleteItem(id) =>
      if id in db.items {
        DeleteItemSucceedsIff(db, id);
      }
    case InsertPort(id, port) => PortAcceptedIff(db, id, port);
    case UpdatePort(id, port) => PortAcceptedIff(db, id, port);
    case DeletePort(id) => UnusedPortIsDeletable(db, id);
    case InsertLink(id, link) => LinkAcceptedIff(db, id, link);
    case UpdateLink(id, link) => LinkAcceptedIff(db, id, link);
    case DeleteLink(_) =>
  }

  lemma UnusedPortIsDeletable(db: Db, id: Id)
    requires LinksOk(db)
    ensures Perform(db, DeletePort(id)).Ok? <==> Acceptable(db, DeletePort(id))
  {
    forall i | i in db.links ensures db.links[i].upPort in db.ports && (db.links[i].downPort.Some? ==> db.links[i].downPort.value in db.ports) {
      assert LinkKeys(db.items, db.ports, db.links[i]);
    }
  }

  /* ---------- What one statement writes ---------- */

  function Lookup<T>(table: map<Id, T>, id: Id): Option<T> {
    if id in table then Some(table[id]) else None
  }

  /** What a statement makes of item `x`, given its row. */
  function ItemAfter(row: Option<Item>, s: Statement, x: Id): Option<Item> {
    match s
    case InsertItem(id, item) => if id == x then Some(item) else row
    case UpdateItem(id, parent, attached) =>
      if id == x && row.Some? then Some(Changed(row.value, parent, attached)) else row
    case DeleteItem(id) => if id == x then None else row
    case _ => row
  }

  /** What a statement makes of port `x`: deleting its item takes it along. */
  function PortAfter(row: Option<Port>, s: Statement, x: Id): Option<Port> {
    match s
    case InsertPort(id, port) => if id == x then Some(port) else row
    case UpdatePort(id, port) => if id == x && row.Some? then Some(port) else row
    case DeletePort(id) => if id == x then None else row
    case DeleteItem(id) => if row.Some? && row.value.item == id then None else row
    case _ => row
  }

  /** What a statement makes of link `x`: deleting the device at its lower end takes it along. */
  function LinkAfter(row: Option<Link>, s: Statement, x: Id): Option<Link> {
    match s
    case InsertLink(id, link) => if id == x then Some(link) else row
    case UpdateLink(id, link) => if id == x && row.Some? then Some(link) else row
    case DeleteLink(id) => if id == x then None else row
    case DeleteItem(id) => if row.Some? && row.value.downItem == id then None else row
    case _ => row
  }

  /** Every row of the three tables stands as the statement says, the rows it does not name included. */
  ghost predicate Writes(db: Db, s: Statement, after: Db) {
    && (forall x :: Lookup(after.items, x) == ItemAfter(Lookup(db.items, x), s, x))
    && (forall x :: Lookup(after.ports, x) == PortAfter(Lookup(db.ports, x), s, x))
    && (forall x :: Lookup(after.links, x) == LinkAfter(Lookup(db.links, x), s, x))
  }

  lemma PerformWrites(db: Db, s: Statement)
    requires LinksOk(db) && Perform(db, s).Ok?
    ensures Writes(db, s, Perform(db, s).value.db)
  {
    match s
    case DeleteItem(id) => DeleteWrites(db, id);
    case _ =>
  }

  lemma DeleteWrites(db: Db, id: Id)
    requires LinksOk(db) && DeleteItemEffect(db, id).Ok?
    ensures Writes(db, DeleteItem(id), DeleteItemEffect(db, id).value.db)
  {
    forall x | x in db.ports ensures db.ports[x].item in db.items {
      assert PortKey(db.items, db.ports[x]);
    }
    forall x | x in db.links ensures db.links[x].downItem in db.items {
      assert LinkKeys(db.items, db.ports, db.links[x]);
    }
  }

  /* ---------- Transactions ---------- */

  /** The committed database, and what the open transaction has made of it. */
  datatype Session = Session(committed: Db, current: Db, queue: set<Id>, failed: bool)

  datatype Action = Run(s: Statement) | Commit | Rollback

  function Begin(db: Db): Session {
    Session(db, db, {}, false)
  }

  /** COMMIT of a failed transaction is a rollback; so is one whose queue holds a mismatch. */
  predicate CommitSucceeds(session: Session) {
    !session.failed && forall item | item in session.queue :: ParentAsserted(session.current, item)
  }

  function Step(session: Session, a: Action): Session {
    match a
    case Run(s) =>
      if session.failed then session
      else (match Perform(session.current, s)
            case Err(_) => session.(failed := true)
            case Ok(effect) => session.(current := effect.db, queue := session.queue + effect.queued))
    case Commit => Begin(if CommitSucceeds(session) then session.current else session.committed)
    case Rollback => Begin(session.committed)
  }

  function Steps(session: Session, actions: seq<Action>): Session
    decreases |actions|
  {
    if actions == [] then session else Steps(Step(session, actions[0]), actions[1..])
  }

  ghost predicate SessionOk(session: Session) {
    && DbOk(session.committed) && Agrees(session.committed)
    && DbOk(session.current) && MismatchesQueued(session.current, session.queue)
  }

  /** The check of the queue alone decides whether every link of the database agrees. */
  lemma CommitSucceedsIff(session: Session)
    requires SessionOk(session)
    ensures CommitSucceeds(session) <==> !session.failed && Agrees(session.current)
  {
    var db := session.current;
    if CommitSucceeds(session) {
      forall i | i in db.links ensures LinkAgrees(db.items, db.links[i]) {
        assert LinkKeys(db.items, db.ports, db.links[i]);
        assert db.links[i].downItem in session.queue ==> ParentAsserted(db, db.links[i].downItem);
      }
    }
  }

  lemma StepKeepsSession(session: Session, a: Action)
    requires SessionOk(session)
    ensures SessionOk(Step(session, a))
  {
    match a {
      case Run(s) =>
        if !session.failed && Perform(session.current, s).Ok? {
          PerformKeepsPlant(session.current, s);
          PerformKeepsLinks(session.current, s);
          PerformQueuesMismatches(session.current, s, session.queue);
        }
      case Commit => CommitSucceedsIff(session);
      case Rollback =>
    }
  }

  /** Safety over every run of every sequence of transactions. */
  lemma {:induction false} EveryRunIsSafe(session: Session, actions: seq<Action>)
    requires SessionOk(session)
    ensures SessionOk(Steps(session, actions))
    decreases |actions|
  {
    if actions != [] {
      StepKeepsSession(session, actions[0]);
      EveryRunIsSafe(Step(session, actions[0]), actions[1..]);
    }
  }

  /** The migrations start from a table without parents, ports or links, which is safe. */
  lemma FreshSchemaIsSafe(items: Items)
    requires forall x | x in items :: items[x].parent.None?
    ensures SessionOk(Begin(Db(items, map[], map[])))
  {
    forall x | x in items ensures exists n: nat :: Rooted(items, x, n) {
      assert Rooted(items, x, 1);
    }
  }

  /* ---------- Reading back what was written ---------- */

  /** The statements that went through: those committed, and those of the open transaction. */
  datatype Log = Log(committed: seq<Statement>, open: seq<Statement>)

  /** A statement is logged when it is acceptable; an aborted transaction leaves no trace. */
  ghost function LogStep(session: Session, log: Log, a: Action): Log {
    match a
    case Run(s) => if !session.failed && Acceptable(session.current, s) then log.(open := log.open + [s]) else log
    case Commit => if !session.failed && Agrees(session.current) then Log(log.committed + log.open, []) else log.(open := [])
    case Rollback => log.(open := [])
  }

  ghost function Logged(session: Session, log: Log, actions: seq<Action>): Log
    decreases |actions|
  {
    if actions == [] then log else Logged(Step(session, actions[0]), LogStep(session, log, actions[0]), actions[1..])
  }

  function ItemAfterAll(row: Option<Item>, log: seq<Statement>, x: Id): Option<Item> {
    if log == [] then row else ItemAfter(ItemAfterAll(row, log[..|log| - 1], x), log[|log| - 1], x)
  }

  function PortAfterAll(row: Option<Port>, log: seq<Statement>, x: Id): Option<Port> {
    if log == [] then row else PortAfter(PortAfterAll(row, log[..|log| - 1], x), log[|log| - 1], x)
  }

  function LinkAfterAll(row: Option<Link>, log: seq<Statement>, x: Id): Option<Link> {
    if log == [] then row else LinkAfter(LinkAfterAll(row, log[..|log| - 1], x), log[|log| - 1], x)
  }

  /** Each key of `after` holds what the statements of the log made of its row in `db`. */
  ghost predicate Replays(db: Db, log: seq<Statement>, after: Db) {
    && (forall x :: Lookup(after.items, x) == ItemAfterAll(Lookup(db.items, x), log, x))
    && (forall x :: Lookup(after.ports, x) == PortAfterAll(Lookup(db.ports, x), log, x))
    && (forall x :: Lookup(after.links, x) == LinkAfterAll(Lookup(db.links, x), log, x))
  }

  lemma ReplaysOneMore(db: Db, log: seq<Statement>, before: Db, s: Statement, after: Db)
    requires Replays(db, log, before) && Writes(before, s, after)
    ensures Replays(db, log + [s], after)
  {
    assert (log + [s])[..|log|] == log;
  }

  ghost predicate LogOk(db: Db, session: Session, log: Log) {
    Replays(db, log.committed, session.committed) && Replays(db, log.committed + log.open, session.current)
  }

  lemma StepKeepsLog(db: Db, session: Session, log: Log, a: Action)
    requires SessionOk(session) && LogOk(db, session, log)
    ensures LogOk(db, Step(session, a), LogStep(session, log, a))
  {
    assert log.committed + [] == log.committed;
    match a
    case Run(s) =>
      PerformAcceptsIff(session.current, s);
      if !session.failed && Acceptable(session.current, s) {
        PerformWrites(session.current, s);
        ReplaysOneMore(db, log.committed + log.open, session.current, s, Perform(session.current, s).value.db);
        assert log.committed + (log.open + [s]) == log.committed + log.open + [s];
      }
    case Commit =>
      CommitSucceedsIff(session);
      assert log.committed + log.open + [] == log.committed + log.open;
    case Rollback =>
  }

  /** After any run, committed and current rows are the ones the accepted statements wrote, key by key. */
  lemma {:induction false} LogIsReplayed(db: Db, session: Session, log: Log, actions: seq<Action>)
    requires SessionOk(session) && LogOk(db, session, log)
    ensures LogOk(db, Steps(session, actions), Logged(session, log, actions))
    decreases |actions|
  {
    if actions != [] {
      StepKeepsLog(db, session, log, actions[0]);
      StepKeepsSession(session, actions[0]);
      LogIsReplayed(db, Step(session, actions[0]), LogStep(session, log, actions[0]), actions[1..]);
    }
  }

  lemma EveryRunReadsBack(db: Db, actions: seq<Action>)
    requires DbOk(db) && Agrees(db)
    ensures var log := Logged(Begin(db), Log([], []), actions);
            && Replays(db, log.committed, Steps(Begin(db), actions).committed)
            && Replays(db, log.committed + log.open, Steps(Begin(db), actions).current)
  {
    var none: seq<Statement> := [];
    assert none + none == none;
    assert Replays(db, none, db);
    LogIsReplayed(db, Begin(db), Log([], []), actions);
  }

  /** Statement `s` leaves link `x` with row `l` as it is, or writes that very row. */
  predicate LinkSurvives(s: Statement, x: Id, l: Link) {
    match s
    case InsertLink(id, m) => id == x ==> m == l
    case UpdateLink(id, m) => id == x ==> m == l
    case DeleteLink(id) => id != x
    case DeleteItem(id) => id != l.downItem
    case _ => true
  }

  /** Statement `k` of the log inserts row `l` under `x`, or changes the row that stands there to it. */
  ghost predicate WritesLink(row: Option<Link>, log: seq<Statement>, k: nat, x: Id, l: Link)
    requires k < |log|
  {
    log[k] == InsertLink(x, l) || (log[k] == UpdateLink(x, l) && LinkAfterAll(row, log[..k], x).Some?)
  }

  /** From statement `k` on, the row survives. */
  ghost predicate LinkSurvivesFrom(log: seq<Statement>, k: nat, x: Id, l: Link) {
    forall j | k <= j < |log| :: LinkSurvives(log[j], x, l)
  }

  /** A link is there exactly as its last accepted INSERT or UPDATE wrote it, with no DELETE or cascade since. */
  lemma {:induction false} LinkIsLastWrite(row: Option<Link>, log: seq<Statement>, x: Id, l: Link)
    ensures LinkAfterAll(row, log, x) == Some(l) <==>
            (row == Some(l) && LinkSurvivesFrom(log, 0, x, l)) ||
            exists k: nat :: k < |log| && WritesLink(row, log, k, x, l) && LinkSurvivesFrom(log, k + 1, x, l)
    decreases |log|
  {
    if log != [] {
      var n := |log| - 1;
      var front := log[..n];
      LinkIsLastWrite(row, front, x, l);
      forall k: nat | k < n ensures WritesLink(row, log, k, x, l) <==> WritesLink(row, front, k, x, l) {
        assert log[..k] == front[..k];
      }
      forall k: nat | k <= n ensures LinkSurvivesFrom(log, k, x, l) <==> LinkSurvivesFrom(front, k, x, l) && LinkSurvives(log[n], x, l) {
        assert forall j | k <= j < n :: log[j] == front[j];
      }
      LastStatement(row, log, x, l);
    }
  }

  lemma LastStatement(row: Option<Link>, log: seq<Statement>, x: Id, l: Link)
    requires log != []
    ensures var n := |log| - 1;
            LinkAfterAll(row, log, x) == Some(l) <==>
            WritesLink(row, log, n, x, l) || (LinkAfterAll(row, log[..n], x) == Some(l) && LinkSurvives(log[n], x, l))
  {
  }

  /* ---------- What a committed database therefore is ---------- */

  /** The device `k` links above `x`. */
  ghost function LinkAncestor(db: Db, x: Id, k: nat): Option<Id>
    decreases k
  {
    if k == 0 then Some(x)
    else if i :| i in db.links && db.links[i].downItem == x then LinkAncestor(db, db.links[i].upItem, k - 1)
    else None
  }

  /** Following links is following parents. */
  lemma {:induction false} LinksFollowParents(db: Db, x: Id, k: nat)
    requires DbOk(db) && Agrees(db) && x in db.items
    requires LinkAncestor(db, x, k).Some?
    ensures Ancestor(db.items, x, k) == LinkAncestor(db, x, k)
    decreases k
  {
    if k > 0 {
      var i :| i in db.links && db.links[i].downItem == x && LinkAncestor(db, x, k) == LinkAncestor(db, db.links[i].upItem, k - 1);
      assert LinkAgrees(db.items, db.links[i]) && EdgeOk(db.items, x);
      LinksFollowParents(db, db.links[i].upItem, k - 1);
    }
  }

  /** Links form a forest inside one company: no device is fed, however indirectly, by itself. */
  lemma CommittedLinksAreAForest(db: Db, x: Id, k: nat)
    requires DbOk(db) && Agrees(db) && x in db.items && k > 0
    requires LinkAncestor(db, x, k).Some?
    ensures var a := LinkAncestor(db, x, k).value;
            a != x && a in db.items && db.items[a].company == db.items[x].company && db.items[a].attached
  {
    LinksFollowParents(db, x, k);
    ChainIsOneCompanyAndAttached(db.items, x, k);
    var n: nat :| Rooted(db.items, x, n);
    NotOwnAncestor(db.items, x, k, n);
  }

  /** Whatever has been run, a committed upstream port feeds one device at most, and that device hangs from the port's item. */
  lemma PortFeedsOneDevice(session: Session, actions: seq<Action>, i: Id, j: Id)
    requires SessionOk(session)
    requires var links := Steps(session, actions).committed.links; i in links && j in links
    ensures var db := Steps(session, actions).committed;
            var l, m := db.links[i], db.links[j];
            && (l.upPort == m.upPort || l.downItem == m.downItem ==> i == j)
            && l.upPort in db.ports && db.ports[l.upPort].item == l.upItem
            && l.downItem in db.items && db.items[l.downItem].parent == Some(l.upItem)
            && db.items[l.downItem].company == l.company == db.ports[l.upPort].company
  {
    EveryRunIsSafe(session, actions);
    var db := Steps(session, actions).committed;
    assert LinksCompatible(db.links[i], db.links[j]) || i == j;
    assert LinkKeys(db.items, db.ports, db.links[i]) && LinkAgrees(db.items, db.links[i]);
  }

  /** Every port, linked or not, stays on an item of its own company. */
  lemma PortsStayAtHome(session: Session, actions: seq<Action>, p: Id)
    requires SessionOk(session) && p in Steps(session, actions).committed.ports
    ensures var db := Steps(session, actions).committed;
            db.ports[p].item in db.items && db.items[db.ports[p].item].company == db.ports[p].company
  {
    EveryRunIsSafe(session, actions);
    var db := Steps(session, actions).committed;
    assert PortKey(db.items, db.ports[p]);
  }

  /** When the deletion of an item goes through, in any state a transaction can be in. */
  lemma DeleteItemSucceedsIff(db: Db, id: Id)
    requires DbOk(db) && id in db.items
    ensures DeleteItemEffect(db, id).Ok? <==>
            !HasChild(db.items, id) && forall i | i in db.links :: db.links[i].upItem != id
  {
    var after := Cascaded(db, id);
    forall i | i in after.links && after.links[i].upPort !in after.ports ensures db.links[i].upItem == id {
      assert LinkKeys(db.items, db.ports, db.links[i]);
    }
    forall i | i in after.links && after.links[i].downPort.Some? ensures after.links[i].downPort.value in after.ports {
      assert LinkKeys(db.items, db.ports, db.links[i]);
    }
    forall i | i in db.links && db.links[i].upItem == id ensures i in after.links && after.links[i].upPort !in after.ports {
      assert LinkKeys(db.items, db.ports, db.links[i]);
    }
  }

  /** In a committed database the keys of ports and links never stop the deletion of a childless item. */
  lemma ChildlessItemIsDeletable(db: Db, id: Id)
    requires DbOk(db) && Agrees(db) && id in db.items && !HasChild(db.items, id)
    ensures Perform(db, DeleteItem(id)) == Ok(Effect(Cascaded(db, id), {}))
    ensures Agrees(Cascaded(db, id))
  {
    forall i | i in db.links ensures db.links[i].upItem != id {
      assert LinkAgrees(db.items, db.links[i]);
      assert db.items[db.links[i].downItem].parent == Some(db.links[i].upItem);
    }
    DeleteItemSucceedsIff(db, id);
  }

  /**
   Moving a linked device takes two statements, in either order; between them the link disagrees,
   yet the transaction commits. Either statement alone is rolled back.
   */
  lemma MoveLinkedDevice(db: Db, i: Id, p: Id, port: Id)
    requires DbOk(db) && Agrees(db) && i in db.links
    requires var l := db.links[i];
             && l.upItem != p
             && Perform(db, UpdateItem(l.downItem, Some(Some(p)), None)).Ok?
             && Perform(db, UpdateLink(i, l.(upItem := p, upPort := port))).Ok?
    ensures var l := db.links[i];
            var reparent := Run(UpdateItem(l.downItem, Some(Some(p)), None));
            var relink := Run(UpdateLink(i, l.(upItem := p, upPort := port)));
            var moved := Db(db.items[l.downItem := db.items[l.downItem].(parent := Some(p))], db.ports,
                            db.links[i := l.(upItem := p, upPort := port)]);
            && !Agrees(Step(Begin(db), reparent).current)
            && !Agrees(Step(Begin(db), relink).current)
            && Steps(Begin(db), [reparent, relink, Commit]) == Begin(moved)
            && Steps(Begin(db), [relink, reparent, Commit]) == Begin(moved)
            && Steps(Begin(db), [reparent, Commit]) == Begin(db)
            && Steps(Begin(db), [relink, Commit]) == Begin(db)
  {
    var l := db.links[i];
    assert LinkAgrees(db.items, l) && LinkKeys(db.items, db.ports, l);
    var reparent := Run(UpdateItem(l.downItem, Some(Some(p)), None));
    var relink := Run(UpdateLink(i, l.(upItem := p, upPort := port)));
    var moved := Db(db.items[l.downItem := db.items[l.downItem].(parent := Some(p))], db.ports,
                    db.links[i := l.(upItem := p, upPort := port)]);
    var s := Begin(db);
    var s1, s2 := Step(s, reparent), Step(s, relink);
    assert !LinkAgrees(s1.current.items, s1.current.links[i]);
    assert !LinkAgrees(s2.current.items, s2.current.links[i]);
    MovedAgrees(db, i, moved);
    assert Step(s1, relink).current == moved == Step(s2, reparent).current;
    StepKeepsSession(s, reparent);
    StepKeepsSession(s, relink);
    StepKeepsSession(s1, relink);
    StepKeepsSession(s2, reparent);
    CommitSucceedsIff(s1);
    CommitSucceedsIff(s2);
    CommitSucceedsIff(Step(s1, relink));
    CommitSucceedsIff(Step(s2, reparent));
    StepsOfThree(s, reparent, relink, Commit);
    StepsOfThree(s, relink, reparent, Commit);
    StepsOfTwo(s, reparent, Commit);
    StepsOfTwo(s, relink, Commit);
  }

  lemma MovedAgrees(db: Db, i: Id, moved: Db)
    requires LinksOk(db) && Agrees(db) && i in db.links && i in moved.links
    requires moved.links == db.links[i := moved.links[i]] && moved.links[i].downItem == db.links[i].downItem
    requires db.links[i].downItem in db.items
    requires moved.items == db.items[db.links[i].downItem := db.items[db.links[i].downItem].(parent := Some(moved.links[i].upItem))]
    ensures Agrees(moved)
  {
    forall j | j in moved.links ensures LinkAgrees(moved.items, moved.links[j]) {
      if j != i {
        assert LinkAgrees(db.items, db.links[j]) && LinksCompatible(db.links[i], db.links[j]);
      }
    }
  }

  lemma StepsOfTwo(s: Session, a: Action, b: Action)
    ensures Steps(s, [a, b]) == Step(Step(s, a), b)
  {
    assert [a, b][1..] == [b] && [b][1..] == [];
    assert Steps(Step(s, a), [b]) == Steps(Step(Step(s, a), b), []);
  }

  lemma StepsOfThree(s: Session, a: Action, b: Action, c: Action)
    ensures Steps(s, [a, b, c]) == Step(Step(Step(s, a), b), c)
  {
    assert [a, b, c][1..] == [b, c];
    StepsOfTwo(Step(s, a), b, c);
  }

  /* ---------- The database itself ---------- */

  class PlantDatabase {
    var committed: Db
    var current: Db
    var queue: set<Id>
    var failed: bool

    function State(): Session
      reads this
    {
      Session(committed, current, queue, failed)
    }

    ghost predicate Valid()
      reads this
    {
      SessionOk(State())
    }

    constructor (items: Items)
      requires forall x | x in items :: items[x].parent.None?
      ensures Valid() && State() == Begin(Db(items, map[], map[]))
    {
      committed := Db(items, map[], map[]);
      current := Db(items, map[], map[]);
      queue, failed := {}, false;
      FreshSchemaIsSafe(items);
    }

    /** One statement: its row triggers, constraints and cascades, then its queued checks. */
    method Execute(s: Statement) returns (error: Option<DbError>)
      requires Valid()
      modifies this
      ensures Valid() && State() == Step(old(State()), Run(s))
      ensures error.None? <==> !old(failed) && Acceptable(old(current), s)
      ensures if error.None? then Writes(old(current), s, current) else current == old(current)
    {
      StepKeepsSession(State(), Run(s));
      PerformAcceptsIff(current, s);
      if Perform(current, s).Ok? {
        PerformWrites(current, s);
      }
      if failed {
        return Some(InFailedTransaction);
      }
      error := None;
      match s {
        case InsertItem(id, item) => error := ItemInsert(id, item);
        case UpdateItem(id, parent, attached) => error := ItemUpdate(id, parent, attached);
        case _ =>
          match Perform(current, s) {
            case Err(e) => error := Some(e);
            case Ok(effect) =>
              current := effect.db;
              queue := queue + effect.queued;
          }
      }
      failed := error.Some?;
    }

    method ItemInsert(id: Id, item: Item) returns (error: Option<DbError>)
      modifies `current
      ensures error == match Perform(old(current), InsertItem(id, item)) case Ok(_) => None case Err(e) => Some(e)
      ensures current == if error.None? then Perform(old(current), InsertItem(id, item)).value.db else old(current)
    {
      var verdict := GraphGuard(current.items, id, item);
      if verdict.Some? {
        return Some(Graph(verdict.value));
      }
      if item.parent.Some? && !item.attached {
        return Some(Graph(CheckParentAttached));
      }
      if id in current.items {
        return Some(Graph(DuplicateKey));
      }
      current := current.(items := current.items[id := item]);
      return None;
    }

    method ItemUpdate(id: Id, parent: Option<Option<Id>>, attached: Option<bool>) returns (error: Option<DbError>)
      modifies `current, `queue
      ensures error == match Perform(old(current), UpdateItem(id, parent, attached)) case Ok(_) => None case Err(e) => Some(e)
      ensures error.Some? ==> current == old(current) && queue == old(queue)
      ensures error.None? ==>
                var effect := Perform(old(current), UpdateItem(id, parent, attached)).value;
                current == effect.db && queue == old(queue) + effect.queued
    {
      if id !in current.items {
        return None;
      }
      var row := current.items[id];
      if parent.Some? {
        row := row.(parent := parent.value);
      }
      if attached.Some? {
        row := row.(attached := attached.value);
        if current.items[id].attached && !row.attached && HasChild(current.items, id) {
          return Some(Graph(HasChildren));
        }
      }
      if parent.Some? {
        var verdict := GraphGuard(current.items, id, row);
        if verdict.Some? {
          return Some(Graph(verdict.value));
        }
      }
      if row.parent.Some? && !row.attached {
        return Some(Graph(CheckParentAttached));
      }
      current := current.(items := current.items[id := row]);
      if parent.Some? {
        queue := queue + {id};
      }
      return None;
    }

    /** COMMIT: the queued checks run one by one; the first that fails rolls everything back. */
    method CommitWork() returns (ok: bool)
      requires Valid()
      modifies this
      ensures Valid() && State() == Step(old(State()), Commit)
      ensures ok <==> !old(failed) && Agrees(old(current))
      ensures Agrees(committed)
    {
      StepKeepsSession(State(), Commit);
      CommitSucceedsIff(State());
      ok := !failed;
      var pending := queue;
      while ok && pending != {}
        invariant State() == old(State()) && pending <= queue
        invariant ok ==> !failed && forall item | item in queue && item !in pending :: ParentAsserted(current, item)
        invariant !ok ==> !CommitSucceeds(State())
        decreases |pending|
      {
        NonEmpty(pending);
        var item :| item in pending;
        if !ParentAsserted(current, item) {
          ok := false;
        }
        pending := pending - {item};
      }
      if ok {
        committed := current;
      } else {
        current := committed;
      }
      queue, failed := {}, false;
    }

    method RollbackWork()
      requires Valid()
      modifies this
      ensures Valid() && State() == Begin(old(committed))
    {
      current, queue, failed := committed, {}, false;
    }
  }
}
