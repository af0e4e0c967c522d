/**
 Registering, updating and deleting linked actors (actors/controllers.py, ActorsResource.post, ActorResource.put and
 delete, validate_link, check_for_link_cycles), with links resolved as the event code resolves them
 (actors/models.py, Event).  The table of aliases is fixed.
 */
module ActorRegistry {
  import opened Options
  import opened LinkGraph
  import Text

  /** A link as the user gave it: classifying it as an actor id or an alias is the id library's business. */
  datatype Link = NoLink | ById(id: string) | ByAlias(alias: string)

  datatype Actor = Actor(tenant: string, id: string, link: Link)

  type Actors = map<string, Actor>
  type Aliases = map<string, string>

  /** The database id of an actor, and in the same format that of an alias. */
  function DbId(tenant: string, id: string): string {
    tenant + "_" + id
  }

  /** The actor id that a link names; an alias that is not in the table cannot be resolved. */
  function Resolve(aliases: Aliases, tenant: string, link: Link): Option<string> {
    match link
    case NoLink => None
    case ById(id) => Some(id)
    case ByAlias(alias) => if DbId(tenant, alias) in aliases then Some(aliases[DbId(tenant, alias)]) else None
  }

  /** The tenant that the event code reads off a database id. */
  function EventTenant(dbid: string): string {
    Text.Split(dbid, '_')[0]
  }

  /** The links as their owners mean them: every actor's link is resolved within its own tenant. */
  function TenantLinks(aliases: Aliases, actors: Actors): Links {
    map k | k in actors && Resolve(aliases, actors[k].tenant, actors[k].link).Some?
      :: DbId(actors[k].tenant, Resolve(aliases, actors[k].tenant, actors[k].link).value)
  }

  /** The links that events follow: every actor's link is resolved within the tenant of its id. */
  function EventLinks(aliases: Aliases, actors: Actors): Links {
    map k | k in actors && Resolve(aliases, EventTenant(k), actors[k].link).Some?
      :: DbId(EventTenant(k), Resolve(aliases, EventTenant(k), actors[k].link).value)
  }

  /**
   The dictionary built for a proposed link: every other actor's link gets the requester's tenant on its target,
   whatever tenant the actor belongs to.
   */
  function CheckedLinks(aliases: Aliases, actors: Actors, tenant: string, dbid: string, target: string): Links {
    (map k | k in actors && k != dbid && Resolve(aliases, actors[k].tenant, actors[k].link).Some?
       :: DbId(tenant, Resolve(aliases, actors[k].tenant, actors[k].link).value))[dbid := target]
  }

  /** The links among the requester's own actors, with the proposed link in place of the actor's old one. */
  function OwnLinks(aliases: Aliases, actors: Actors, tenant: string, dbid: string, target: string): Links {
    (map k | k in actors && k != dbid && actors[k].tenant == tenant && Resolve(aliases, tenant, actors[k].link).Some?
       :: DbId(tenant, Resolve(aliases, tenant, actors[k].link).value))[dbid := target]
  }

  // ---------------------------------------------------------------------------------------------
  // Tenants and ids
  // ---------------------------------------------------------------------------------------------

  predicate PlainTenant(tenant: string) {
    Text.Free(tenant, '_')
  }

  predicate PlainId(id: string) {
    Text.Free(id, '_')
  }

  /** Every actor is stored under its own database id. */
  predicate Keyed(actors: Actors) {
    forall k :: k in actors ==> k == DbId(actors[k].tenant, actors[k].id)
  }

  lemma EventTenantOf(tenant: string, id: string)
    requires PlainTenant(tenant)
    ensures EventTenant(DbId(tenant, id)) == tenant
  {
    Text.SplitAtSeparator(tenant, id, '_');
  }

  lemma EventTenantIsPlain(dbid: string)
    ensures PlainTenant(EventTenant(dbid))
  {
    Text.SplitIsFree(dbid, '_');
  }

  /** The database ids that begin with a tenant. */
  predicate InTenant(tenant: string, x: string) {
    |tenant| < |x| && x[..|tenant|] == tenant && x[|tenant|] == '_'
  }

  lemma DbIdInTenant(tenant: string, id: string)
    ensures InTenant(tenant, DbId(tenant, id))
  {
    assert DbId(tenant, id)[..|tenant|] == tenant;
  }

  lemma TenantIsUnique(t: string, t': string, x: string)
    requires PlainTenant(t) && PlainTenant(t') && InTenant(t, x) && InTenant(t', x)
    ensures t == t'
  {
    assert forall i :: 0 <= i < |t| ==> x[i] == t[i] && x[i] != '_';
    assert forall i :: 0 <= i < |t'| ==> x[i] == t'[i] && x[i] != '_';
  }

  /** A plain id determines its tenant. */
  lemma PlainIdsAreUnique(t: string, u: string, id: string, id': string)
    requires PlainId(id) && PlainId(id') && DbId(t, id) == DbId(u, id')
    ensures t == u && id == id'
  {
    var d := DbId(t, id);
    assert d[|t|] == '_' && d[|u|] == '_';
    assert |id| == |id'|;
    assert d[..|t|] == t && d[..|u|] == u && d[|t|+1..] == id && d[|u|+1..] == id';
  }

  // ---------------------------------------------------------------------------------------------
  // Ids that spell another tenant's actor
  // ---------------------------------------------------------------------------------------------

  /** The database ids that were ever given to an actor, with the tenant of the actor. */
  type Issued = map<string, string>

  /** Put after this tenant's name, the id is not the database id of another tenant's actor. */
  predicate NotMisread(issued: Issued, tenant: string, id: string) {
    DbId(tenant, id) in issued ==> issued[DbId(tenant, id)] == tenant
  }

  /** The same for the names of all tenants with actors, and for what events take for such a name. */
  predicate SpellsNoOther(issued: Issued, id: string) {
    forall d :: d in issued ==> NotMisread(issued, issued[d], id) && NotMisread(issued, EventTenant(d), id)
  }

  predicate LinkSpelled(link: Link, issued: Issued) {
    link.ById? ==> SpellsNoOther(issued, link.id)
  }

  /** No id that a link or an alias names spells another tenant's actor. */
  predicate WellSpelled(aliases: Aliases, actors: Actors, issued: Issued) {
    (forall a :: a in aliases ==> SpellsNoOther(issued, aliases[a])) &&
    (forall k :: k in actors ==> LinkSpelled(actors[k].link, issued))
  }

  predicate Owned(actors: Actors, issued: Issued) {
    forall k :: k in actors ==> k in issued && issued[k] == actors[k].tenant
  }

  lemma ResolvedIsSpelled(aliases: Aliases, issued: Issued, tenant: string, link: Link)
    requires (forall a :: a in aliases ==> SpellsNoOther(issued, aliases[a])) && LinkSpelled(link, issued)
    requires Resolve(aliases, tenant, link).Some?
    ensures SpellsNoOther(issued, Resolve(aliases, tenant, link).value)
  {
  }

  function ActorsOf(actors: Actors, tenant: string): set<string> {
    set k | k in actors && actors[k].tenant == tenant
  }

  /** A cycle of the tenants' links stays among the actors of one tenant. */
  lemma TenantCycleStays(aliases: Aliases, actors: Actors, issued: Issued, x: string)
    requires Owned(actors, issued) && WellSpelled(aliases, actors, issued)
    requires OnCycle(TenantLinks(aliases, actors), x)
    ensures x in actors && Next(TenantLinks(aliases, actors), x) in ActorsOf(actors, actors[x].tenant)
  {
    var links := TenantLinks(aliases, actors);
    CycleNodesHaveLinks(links, x);
    NextIsOnCycle(links, x);
    CycleNodesHaveLinks(links, links[x]);
    ResolvedIsSpelled(aliases, issued, actors[x].tenant, actors[x].link);
    assert NotMisread(issued, issued[x], Resolve(aliases, actors[x].tenant, actors[x].link).value);
  }

  /** An actor on a cycle of the event links belongs to the tenant that the events take it for. */
  lemma EventCycleNodeIsPlain(aliases: Aliases, actors: Actors, issued: Issued, x: string)
    requires Keyed(actors) && Owned(actors, issued) && WellSpelled(aliases, actors, issued)
    requires OnCycle(EventLinks(aliases, actors), x)
    ensures x in actors && actors[x].tenant == EventTenant(x)
  {
    var y := CyclePredecessor(EventLinks(aliases, actors), x);
    var tenant := EventTenant(y);
    ResolvedIsSpelled(aliases, issued, tenant, actors[y].link);
    assert NotMisread(issued, EventTenant(y), Resolve(aliases, tenant, actors[y].link).value);
    EventTenantIsPlain(y);
    EventTenantOf(tenant, actors[x].id);
  }

  /** Whatever the tenants are called, events go round only where the tenants' own links do. */
  lemma EventsFollowTenantCycles(aliases: Aliases, actors: Actors, issued: Issued)
    requires Keyed(actors) && Owned(actors, issued) && WellSpelled(aliases, actors, issued)
    requires !HasCycle(TenantLinks(aliases, actors))
    ensures !HasCycle(EventLinks(aliases, actors))
  {
    var events, links := EventLinks(aliases, actors), TenantLinks(aliases, actors);
    forall x ensures !OnCycle(events, x) {
      if OnCycle(events, x) {
        forall y | OnCycle(events, y) ensures Next(links, y) == Next(events, y) && Next(events, y) in events.Keys {
          CycleNodesHaveLinks(events, y);
          NextIsOnCycle(events, y);
          CycleNodesHaveLinks(events, events[y]);
          EventCycleNodeIsPlain(aliases, actors, issued, y);
        }
        CycleNodesHaveLinks(events, x);
        CycleTransfers(events, links, events.Keys, x);
      }
    }
  }

  /** In a plain tenant, events follow the tenant's links. */
  lemma PlainTenantCycles(aliases: Aliases, actors: Actors, issued: Issued, x: string)
    requires Keyed(actors) && Owned(actors, issued) && WellSpelled(aliases, actors, issued)
    requires OnCycle(TenantLinks(aliases, actors), x) && x in actors && PlainTenant(actors[x].tenant)
    ensures OnCycle(EventLinks(aliases, actors), x)
  {
    var links, events := TenantLinks(aliases, actors), EventLinks(aliases, actors);
    var region := ActorsOf(actors, actors[x].tenant);
    forall y | y in region && OnCycle(links, y) ensures Next(events, y) == Next(links, y) && Next(links, y) in region {
      TenantCycleStays(aliases, actors, issued, y);
      EventTenantOf(actors[y].tenant, actors[y].id);
    }
    CycleTransfers(links, events, region, x);
  }

  // ---------------------------------------------------------------------------------------------
  // What the check decides
  // ---------------------------------------------------------------------------------------------

  /** The cycles of the checked graph that run through the requester's own actors only are those of its own links. */
  lemma OwnCyclesDecide(aliases: Aliases, actors: Actors, tenant: string, dbid: string, target: string)
    requires var checked := CheckedLinks(aliases, actors, tenant, dbid, target);
             forall x :: OnCycle(checked, x) && x != dbid ==> x in actors && actors[x].tenant == tenant
    ensures HasCycle(CheckedLinks(aliases, actors, tenant, dbid, target))
       <==> HasCycle(OwnLinks(aliases, actors, tenant, dbid, target))
  {
    var checked := CheckedLinks(aliases, actors, tenant, dbid, target);
    var own := OwnLinks(aliases, actors, tenant, dbid, target);
    if !HasCycle(checked) {
      SubgraphStaysAcyclic(own, checked);
    } else {
      var x :| OnCycle(checked, x);
      forall y | OnCycle(checked, y) ensures Next(own, y) == Next(checked, y) && Next(checked, y) in checked.Keys {
        CycleNodesHaveLinks(checked, y);
        NextIsOnCycle(checked, y);
        CycleNodesHaveLinks(checked, checked[y]);
      }
      CycleNodesHaveLinks(checked, x);
      CycleTransfers(checked, own, checked.Keys, x);
    }
  }

  /** No id is given to actors of two tenants. */
  ghost predicate IdsUnique(issued: set<string>) {
    forall t, u, id :: DbId(t, id) in issued && DbId(u, id) in issued ==> t == u
  }

  /** Every stored actor has its own id as key, and it and the actor that it links to were issued. */
  predicate LinksIssued(aliases: Aliases, actors: Actors, issued: set<string>) {
    Keyed(actors) &&
    forall k :: k in actors ==>
      var target := Resolve(aliases, actors[k].tenant, actors[k].link);
      k in issued && (target.Some? ==> DbId(actors[k].tenant, target.value) in issued)
  }

  /**
   When no id is given to actors of two tenants, building the graph with the requester's tenant on every target changes
   nothing, whatever the tenants are called: it has a cycle exactly when the requester's own actors have one with the
   proposed link.  The target that an actor of another tenant gets is nobody.
   */
  lemma CheckDecidesOwnTenant(aliases: Aliases, actors: Actors, issued: set<string>, tenant: string, dbid: string,
                              target: string)
    requires LinksIssued(aliases, actors, issued) && IdsUnique(issued) && dbid in issued
    ensures HasCycle(CheckedLinks(aliases, actors, tenant, dbid, target))
       <==> HasCycle(OwnLinks(aliases, actors, tenant, dbid, target))
  {
    var checked := CheckedLinks(aliases, actors, tenant, dbid, target);
    forall x | OnCycle(checked, x) && x != dbid ensures x in actors && actors[x].tenant == tenant {
      CycleNodesHaveLinks(checked, x);
      NextIsOnCycle(checked, x);
      CycleNodesHaveLinks(checked, checked[x]);
      var id := Resolve(aliases, actors[x].tenant, actors[x].link).value;
      assert DbId(tenant, id) in issued && DbId(actors[x].tenant, id) in issued;
    }
    OwnCyclesDecide(aliases, actors, tenant, dbid, target);
  }

  /** For tenants without an underscore the same holds whatever ids were given to actors. */
  lemma CheckDecidesPlainTenant(aliases: Aliases, actors: Actors, tenant: string, dbid: string, target: string)
    requires Keyed(actors) && forall k :: k in actors ==> PlainTenant(actors[k].tenant)
    requires PlainTenant(tenant) && InTenant(tenant, dbid) && InTenant(tenant, target)
    ensures HasCycle(CheckedLinks(aliases, actors, tenant, dbid, target))
       <==> HasCycle(OwnLinks(aliases, actors, tenant, dbid, target))
  {
    var checked := CheckedLinks(aliases, actors, tenant, dbid, target);
    forall x | OnCycle(checked, x) && x != dbid ensures x in actors && actors[x].tenant == tenant {
      var y := CyclePredecessor(checked, x);
      if y != dbid {
        DbIdInTenant(tenant, Resolve(aliases, actors[y].tenant, actors[y].link).value);
      }
      DbIdInTenant(actors[x].tenant, actors[x].id);
      TenantIsUnique(actors[x].tenant, tenant, x);
    }
    OwnCyclesDecide(aliases, actors, tenant, dbid, target);
  }

  /** And it holds when no id that is used spells another tenant's actor. */
  lemma CheckDecidesSpelled(aliases: Aliases, actors: Actors, issued: Issued, dbid: string, id: string)
    requires Owned(actors, issued) && WellSpelled(aliases, actors, issued)
    requires dbid in issued && SpellsNoOther(issued, id)
    ensures var target := DbId(issued[dbid], id);
            (HasCycle(CheckedLinks(aliases, actors, issued[dbid], dbid, target))
             <==> HasCycle(OwnLinks(aliases, actors, issued[dbid], dbid, target)))
  {
    var tenant := issued[dbid];
    var checked := CheckedLinks(aliases, actors, tenant, dbid, DbId(tenant, id));
    forall x | OnCycle(checked, x) && x != dbid ensures x in actors && actors[x].tenant == tenant {
      var y := CyclePredecessor(checked, x);
      if y == dbid {
        assert NotMisread(issued, issued[dbid], id);
      } else {
        ResolvedIsSpelled(aliases, issued, actors[y].tenant, actors[y].link);
        assert NotMisread(issued, issued[dbid], Resolve(aliases, actors[y].tenant, actors[y].link).value);
      }
    }
    OwnCyclesDecide(aliases, actors, tenant, dbid, DbId(tenant, id));
  }

  function Relinked(actors: Actors, dbid: string, link: Link): Actors
    requires dbid in actors
  {
    actors[dbid := actors[dbid].(link := link)]
  }

  /** A cycle of the updated links that is not one of the requester's own was there before. */
  lemma NewCyclesAreOwn(aliases: Aliases, actors: Actors, issued: Issued, dbid: string, link: Link, x: string)
    requires Owned(actors, issued) && dbid in actors && WellSpelled(aliases, Relinked(actors, dbid, link), issued)
    requires OnCycle(TenantLinks(aliases, Relinked(actors, dbid, link)), x)
    requires !HasCycle(TenantLinks(aliases, actors))
    ensures x in actors && actors[x].tenant == actors[dbid].tenant
  {
    var updated := Relinked(actors, dbid, link);
    var after, before := TenantLinks(aliases, updated), TenantLinks(aliases, actors);
    TenantCycleStays(aliases, updated, issued, x);
    if actors[x].tenant != actors[dbid].tenant {
      var region := ActorsOf(updated, updated[x].tenant);
      forall y | y in region && OnCycle(after, y)
        ensures Next(before, y) == Next(after, y) && Next(after, y) in region
      {
        TenantCycleStays(aliases, updated, issued, y);
      }
      CycleTransfers(after, before, region, x);
    }
  }

  /** When the tenants' links have no cycle, the requester's own links say whether there is one after the update. */
  lemma OwnLinksDecide(aliases: Aliases, actors: Actors, issued: Issued, dbid: string, link: Link)
    requires Owned(actors, issued) && WellSpelled(aliases, actors, issued) && dbid in actors
    requires LinkSpelled(link, issued) && Resolve(aliases, actors[dbid].tenant, link).Some?
    requires !HasCycle(TenantLinks(aliases, actors))
    ensures var tenant := actors[dbid].tenant;
            (HasCycle(OwnLinks(aliases, actors, tenant, dbid, DbId(tenant, Resolve(aliases, tenant, link).value)))
             <==> HasCycle(TenantLinks(aliases, Relinked(actors, dbid, link))))
  {
    var tenant, updated := actors[dbid].tenant, Relinked(actors, dbid, link);
    var own := OwnLinks(aliases, actors, tenant, dbid, DbId(tenant, Resolve(aliases, tenant, link).value));
    var after := TenantLinks(aliases, updated);
    if !HasCycle(after) {
      SubgraphStaysAcyclic(own, after);
    } else {
      var x :| OnCycle(after, x);
      forall y | OnCycle(after, y) ensures Next(own, y) == Next(after, y) && Next(after, y) in after.Keys {
        NewCyclesAreOwn(aliases, actors, issued, dbid, link, y);
        CycleNodesHaveLinks(after, y);
        NextIsOnCycle(after, y);
        CycleNodesHaveLinks(after, after[y]);
      }
      CycleNodesHaveLinks(after, x);
      CycleTransfers(after, own, after.Keys, x);
    }
  }

  /** When there was no cycle, the check says exactly whether the tenants' links have one after the update. */
  lemma CheckDecidesUpdate(aliases: Aliases, actors: Actors, issued: Issued, dbid: string, link: Link)
    requires Owned(actors, issued) && WellSpelled(aliases, actors, issued) && dbid in actors
    requires LinkSpelled(link, issued) && Resolve(aliases, actors[dbid].tenant, link).Some?
    requires !HasCycle(TenantLinks(aliases, actors))
    ensures var tenant := actors[dbid].tenant;
            var target := DbId(tenant, Resolve(aliases, tenant, link).value);
            (HasCycle(CheckedLinks(aliases, actors, tenant, dbid, target))
             <==> HasCycle(TenantLinks(aliases, Relinked(actors, dbid, link))))
  {
    ResolvedIsSpelled(aliases, issued, actors[dbid].tenant, link);
    CheckDecidesSpelled(aliases, actors, issued, dbid, Resolve(aliases, actors[dbid].tenant, link).value);
    OwnLinksDecide(aliases, actors, issued, dbid, link);
  }

  /** For an actor of a plain tenant, it says exactly whether events have one, whatever the other tenants are called. */
  lemma EventsFollowUpdate(aliases: Aliases, actors: Actors, issued: Issued, dbid: string, link: Link)
    requires Keyed(actors) && Owned(actors, issued) && WellSpelled(aliases, actors, issued) && dbid in actors
    requires LinkSpelled(link, issued) && PlainTenant(actors[dbid].tenant)
    requires !HasCycle(TenantLinks(aliases, actors))
    ensures HasCycle(TenantLinks(aliases, Relinked(actors, dbid, link)))
       <==> HasCycle(EventLinks(aliases, Relinked(actors, dbid, link)))
  {
    var updated := Relinked(actors, dbid, link);
    if HasCycle(TenantLinks(aliases, updated)) {
      var x :| OnCycle(TenantLinks(aliases, updated), x);
      NewCyclesAreOwn(aliases, actors, issued, dbid, link, x);
      PlainTenantCycles(aliases, updated, issued, x);
    } else {
      EventsFollowTenantCycles(aliases, updated, issued);
    }
  }

  // ---------------------------------------------------------------------------------------------
  // Tenants with an underscore
  // ---------------------------------------------------------------------------------------------

  ghost predicate OfTenant(actors: Actors, tenant: string) {
    forall k :: k in actors ==> actors[k].tenant == tenant && k == DbId(tenant, actors[k].id)
  }

  /** In a registry of one tenant, the check says whether the links that events follow have a cycle after the update. */
  ghost predicate CheckAgrees(aliases: Aliases, actors: Actors, tenant: string, dbid: string, link: Link) {
    OfTenant(actors, tenant) && dbid in actors && Resolve(aliases, tenant, link).Some? &&
    !HasCycle(EventLinks(aliases, actors)) ==>
      (HasCycle(CheckedLinks(aliases, actors, tenant, dbid, DbId(tenant, Resolve(aliases, tenant, link).value)))
       <==> HasCycle(EventLinks(aliases, Relinked(actors, dbid, link))))
  }

  /** Two actors, the first of which links to the second. */
  function TwoActors(tenant: string): Actors {
    map[DbId(tenant, "x") := Actor(tenant, "x", ById("y")), DbId(tenant, "y") := Actor(tenant, "y", NoLink)]
  }

  /** Events of a tenant with an underscore are sent to a shorter one. */
  lemma EventTenantIsShorter(tenant: string, id: string)
    requires !PlainTenant(tenant)
    ensures |EventTenant(DbId(tenant, id))| < |tenant|
  {
    var i :| 0 <= i < |tenant| && tenant[i] == '_';
    Text.FirstWordEnds(DbId(tenant, id), '_', i);
  }

  /** No link of these events leads to an actor. */
  lemma EventsGoAstray(actors: Actors, tenant: string)
    requires !PlainTenant(tenant) && OfTenant(actors, tenant)
    requires forall k :: k in actors ==>
               |actors[k].id| == 1 && (actors[k].link.NoLink? || (actors[k].link.ById? && |actors[k].link.id| == 1))
    ensures !HasCycle(EventLinks(map[], actors))
  {
    var links := EventLinks(map[], actors);
    forall x ensures !OnCycle(links, x) {
      if OnCycle(links, x) {
        var y := CyclePredecessor(links, x);
        EventTenantIsShorter(tenant, actors[y].id);
      }
    }
  }

  lemma UnderscoreMisleads(tenant: string)
    requires !PlainTenant(tenant)
    ensures !CheckAgrees(map[], TwoActors(tenant), tenant, DbId(tenant, "y"), ById("x"))
  {
    var actors, x, y := TwoActors(tenant), DbId(tenant, "x"), DbId(tenant, "y");
    assert x[|x| - 1] != y[|y| - 1];
    EventsGoAstray(actors, tenant);
    EventsGoAstray(Relinked(actors, y, ById("x")), tenant);
    TwoCycle(CheckedLinks(map[], actors, tenant, y, x), x, y);
  }

  /** When all tenants are plain, no id spells another tenant's actor. */
  lemma PlainTenantsSpell(issued: Issued, id: string)
    requires forall d :: d in issued ==> PlainTenant(issued[d]) && InTenant(issued[d], d)
    ensures SpellsNoOther(issued, id)
  {
    forall t | PlainTenant(t) ensures NotMisread(issued, t, id) {
      DbIdInTenant(t, id);
      if DbId(t, id) in issued {
        TenantIsUnique(t, issued[DbId(t, id)], DbId(t, id));
      }
    }
    forall d | d in issued ensures PlainTenant(EventTenant(d)) {
      EventTenantIsPlain(d);
    }
  }

  lemma PlainCheckAgrees(aliases: Aliases, actors: Actors, tenant: string, dbid: string, link: Link)
    requires PlainTenant(tenant) && OfTenant(actors, tenant) && dbid in actors && Resolve(aliases, tenant, link).Some?
    requires !HasCycle(EventLinks(aliases, actors))
    ensures CheckAgrees(aliases, actors, tenant, dbid, link)
  {
    var issued := map k | k in actors :: tenant;
    forall k | k in actors ensures InTenant(tenant, k) && EventTenant(k) == tenant {
      DbIdInTenant(tenant, actors[k].id);
      EventTenantOf(tenant, actors[k].id);
    }
    forall id ensures SpellsNoOther(issued, id) {
      PlainTenantsSpell(issued, id);
    }
    assert TenantLinks(aliases, actors) == EventLinks(aliases, actors);
    CheckDecidesUpdate(aliases, actors, issued, dbid, link);
    EventsFollowUpdate(aliases, actors, issued, dbid, link);
  }

  /**
   The check agrees with the events after every update of every registry of a tenant exactly when the tenant has no
   underscore: the event code takes what comes before the first underscore of an id for the tenant.
   */
  lemma CheckAgreesIffPlain(tenant: string)
    ensures (forall aliases, actors, dbid, link :: CheckAgrees(aliases, actors, tenant, dbid, link))
       <==> PlainTenant(tenant)
  {
    if PlainTenant(tenant) {
      forall aliases, actors, dbid, link ensures CheckAgrees(aliases, actors, tenant, dbid, link) {
        if OfTenant(actors, tenant) && dbid in actors && Resolve(aliases, tenant, link).Some? &&
           !HasCycle(EventLinks(aliases, actors)) {
          PlainCheckAgrees(aliases, actors, tenant, dbid, link);
        }
      }
    } else {
      UnderscoreMisleads(tenant);
    }
  }

  // ---------------------------------------------------------------------------------------------
  // Requests, handled one at a time
  // ---------------------------------------------------------------------------------------------

  /** The stored actors, the ids with a permissions document, and every database id that was ever given to an actor. */
  datatype Registry = Registry(actors: Actors, permissions: set<string>, issued: Issued)

  datatype Request =
    | Register(tenant: string, id: string, link: Link)
    | Update(tenant: string, id: string, link: Link)
    | Remove(tenant: string, id: string)

  datatype Outcome = Done | NoSuchActor | InvalidLink | SelfLink | LinkCycle

  /**
   What validate_link answers.  Registration (an actor without a database id yet) skips the tests for cycles.  The
   verdict on the user's permission is not used: only a missing permissions document refuses the link.
   */
  ghost function ValidateLink(aliases: Aliases, r: Registry, tenant: string, dbid: Option<string>, link: Link): Outcome
  {
    if link.NoLink? then Done
    else match Resolve(aliases, tenant, link)
         case None => InvalidLink
         case Some(id) =>
           var target := DbId(tenant, id);
           if target !in r.permissions then InvalidLink
           else if dbid.None? then Done
           else if target == dbid.value then SelfLink
           else if HasCycle(CheckedLinks(aliases, r.actors, tenant, dbid.value, target)) then LinkCycle
           else Done
  }

  ghost function Respond(aliases: Aliases, r: Registry, request: Request): Outcome {
    match request
    case Register(tenant, id, link) => ValidateLink(aliases, r, tenant, None, link)
    case Update(tenant, id, link) =>
      if DbId(tenant, id) !in r.actors then NoSuchActor
      else ValidateLink(aliases, r, tenant, Some(DbId(tenant, id)), link)
    case Remove(tenant, id) => Done
  }

  ghost function Handle(aliases: Aliases, r: Registry, request: Request): Registry {
    var dbid := DbId(request.tenant, request.id);
    if Respond(aliases, r, request) != Done then r
    else match request
         case Register(tenant, id, link) =>
           Registry(r.actors[dbid := Actor(tenant, id, link)], r.permissions + {dbid}, r.issued[dbid := tenant])
         case Update(_, _, link) => r.(actors := Relinked(r.actors, dbid, link))
         case Remove(_, _) => r.(actors := r.actors - {dbid}, permissions := r.permissions - {dbid})
  }

  function LinkOf(request: Request): Link {
    if request.Remove? then NoLink else request.link
  }

  /** The issued ids with that of a request that registers an actor. */
  function WithRequest(issued: Issued, request: Request): Issued {
    if request.Register? then issued[DbId(request.tenant, request.id) := request.tenant] else issued
  }

  /**
   A registered actor gets a database id that no actor ever had, other requests name actors of their own tenant, and
   no id in the request, the links or the aliases spells another tenant's actor.
   */
  predicate Proper(aliases: Aliases, r: Registry, request: Request) {
    var dbid := DbId(request.tenant, request.id);
    var issued := WithRequest(r.issued, request);
    (dbid in r.issued ==> !request.Register? && r.issued[dbid] == request.tenant) &&
    WellSpelled(aliases, r.actors, issued) && LinkSpelled(LinkOf(request), issued)
  }

  ghost predicate ProperRun(aliases: Aliases, r: Registry, requests: seq<Request>)
    decreases |requests|
  {
    requests == [] ||
    (Proper(aliases, r, requests[0]) && ProperRun(aliases, Handle(aliases, r, requests[0]), requests[1..]))
  }

  ghost function HandleAll(aliases: Aliases, r: Registry, requests: seq<Request>): Registry
    decreases |requests|
  {
    if requests == [] then r else HandleAll(aliases, Handle(aliases, r, requests[0]), requests[1..])
  }

  const EMPTY := Registry(map[], {}, map[])

  ghost predicate TargetsWereIssued(aliases: Aliases, r: Registry) {
    var links := TenantLinks(aliases, r.actors);
    forall k :: k in links ==> links[k] in r.issued
  }

  ghost predicate Inv(aliases: Aliases, r: Registry) {
    Keyed(r.actors) &&
    Owned(r.actors, r.issued) &&
    r.permissions <= r.issued.Keys &&
    TargetsWereIssued(aliases, r) &&
    WellSpelled(aliases, r.actors, r.issued) &&
    !HasCycle(TenantLinks(aliases, r.actors))
  }

  /** One actor's document decides about no other actor's link. */
  lemma OtherLinksStay(aliases: Aliases, actors: Actors, dbid: string, actor: Actor)
    ensures var links, after := TenantLinks(aliases, actors), TenantLinks(aliases, actors[dbid := actor]);
            forall k :: k != dbid ==> Next(after, k) == Next(links, k) && (k in after <==> k in links)
  {
  }

  /** An actor's new link goes to an older actor, and no link goes to the new one: no cycle without any check. */
  lemma RegisterKeepsAcyclic(aliases: Aliases, r: Registry, tenant: string, id: string, link: Link)
    requires Inv(aliases, r) && DbId(tenant, id) !in r.issued
    requires ValidateLink(aliases, r, tenant, None, link) == Done
    ensures !HasCycle(TenantLinks(aliases, r.actors[DbId(tenant, id) := Actor(tenant, id, link)]))
  {
    var dbid := DbId(tenant, id);
    OtherLinksStay(aliases, r.actors, dbid, Actor(tenant, id, link));
    UnlinkedNodeIsHarmless(TenantLinks(aliases, r.actors),
                           TenantLinks(aliases, r.actors[dbid := Actor(tenant, id, link)]), dbid);
  }

  lemma UpdateIsDecided(aliases: Aliases, r: Registry, tenant: string, id: string, link: Link)
    requires Inv(aliases, r) && Proper(aliases, r, Update(tenant, id, link)) && DbId(tenant, id) in r.actors
    requires !link.NoLink? && Resolve(aliases, tenant, link).Some?
    requires DbId(tenant, Resolve(aliases, tenant, link).value) in r.permissions
    ensures Respond(aliases, r, Update(tenant, id, link)) == Done
       <==> !HasCycle(TenantLinks(aliases, Relinked(r.actors, DbId(tenant, id), link)))
  {
    var dbid := DbId(tenant, id);
    var target := DbId(tenant, Resolve(aliases, tenant, link).value);
    CheckDecidesUpdate(aliases, r.actors, r.issued, dbid, link);
    if target == dbid {
      var checked := CheckedLinks(aliases, r.actors, tenant, dbid, target);
      assert Follow(checked, dbid, 0) == dbid && Follow(checked, dbid, 1) == dbid;
      assert OnCycle(checked, dbid);
    }
  }

  lemma DroppedLinkKeepsAcyclic(aliases: Aliases, actors: Actors, dbid: string)
    requires !HasCycle(TenantLinks(aliases, actors))
    ensures !HasCycle(TenantLinks(aliases, actors - {dbid}))
    ensures dbid in actors ==> !HasCycle(TenantLinks(aliases, Relinked(actors, dbid, NoLink)))
  {
    SubgraphStaysAcyclic(TenantLinks(aliases, actors - {dbid}), TenantLinks(aliases, actors));
    if dbid in actors {
      SubgraphStaysAcyclic(TenantLinks(aliases, Relinked(actors, dbid, NoLink)), TenantLinks(aliases, actors));
    }
  }

  /** The link names an actor with a permissions document, or there is none. */
  predicate Linkable(aliases: Aliases, r: Registry, tenant: string, link: Link) {
    var target := Resolve(aliases, tenant, link);
    link.NoLink? || (target.Some? && DbId(tenant, target.value) in r.permissions)
  }

  /** An update is refused exactly when it names an unknown actor, names no actor to link to, or would close a cycle. */
  lemma UpdateAcceptedIff(aliases: Aliases, r: Registry, tenant: string, id: string, link: Link)
    requires Inv(aliases, r) && Proper(aliases, r, Update(tenant, id, link))
    ensures var dbid := DbId(tenant, id);
            (Respond(aliases, r, Update(tenant, id, link)) == Done
             <==> dbid in r.actors && Linkable(aliases, r, tenant, link) &&
                  !HasCycle(TenantLinks(aliases, Relinked(r.actors, dbid, link))))
  {
    var dbid := DbId(tenant, id);
    if dbid in r.actors {
      if link.NoLink? {
        DroppedLinkKeepsAcyclic(aliases, r.actors, dbid);
      } else if Linkable(aliases, r, tenant, link) {
        UpdateIsDecided(aliases, r, tenant, id, link);
      }
    }
  }

  /** For a plain tenant the cycle is one that events would go round, and the other way about. */
  lemma PlainUpdateAcceptedIff(aliases: Aliases, r: Registry, tenant: string, id: string, link: Link)
    requires Inv(aliases, r) && Proper(aliases, r, Update(tenant, id, link)) && PlainTenant(tenant)
    ensures var dbid := DbId(tenant, id);
            (Respond(aliases, r, Update(tenant, id, link)) == Done
             <==> dbid in r.actors && Linkable(aliases, r, tenant, link) &&
                  !HasCycle(EventLinks(aliases, Relinked(r.actors, dbid, link))))
  {
    UpdateAcceptedIff(aliases, r, tenant, id, link);
    var dbid := DbId(tenant, id);
    if dbid in r.actors {
      EventsFollowUpdate(aliases, r.actors, r.issued, dbid, link);
    }
  }

  lemma HandleKeepsTargets(aliases: Aliases, r: Registry, request: Request)
    requires Inv(aliases, r) && Proper(aliases, r, request)
    ensures TargetsWereIssued(aliases, Handle(aliases, r, request))
  {
    var dbid := DbId(request.tenant, request.id);
    if Respond(aliases, r, request) == Done {
      match request
      case Register(tenant, id, link) => OtherLinksStay(aliases, r.actors, dbid, Actor(tenant, id, link));
      case Update(tenant, id, link) => OtherLinksStay(aliases, r.actors, dbid, r.actors[dbid].(link := link));
      case Remove(_, _) =>
        var links, fewer := TenantLinks(aliases, r.actors), TenantLinks(aliases, r.actors - {dbid});
        assert forall k :: k in fewer ==> k in links && fewer[k] == links[k];
    }
  }

  lemma HandleKeepsSpelling(aliases: Aliases, r: Registry, request: Request)
    requires Inv(aliases, r) && Proper(aliases, r, request)
    ensures var after := Handle(aliases, r, request); WellSpelled(aliases, after.actors, after.issued)
  {
  }

  lemma HandleKeepsInv(aliases: Aliases, r: Registry, request: Request)
    requires Inv(aliases, r) && Proper(aliases, r, request)
    ensures Inv(aliases, Handle(aliases, r, request))
  {
    HandleKeepsTargets(aliases, r, request);
    HandleKeepsSpelling(aliases, r, request);
    match request
    case Register(tenant, id, link) =>
      if Respond(aliases, r, request) == Done {
        RegisterKeepsAcyclic(aliases, r, tenant, id, link);
      }
    case Update(tenant, id, link) => UpdateAcceptedIff(aliases, r, tenant, id, link);
    case Remove(tenant, id) => DroppedLinkKeepsAcyclic(aliases, r.actors, DbId(tenant, id));
  }

  /**
   Over every sequence of requests, of tenants of any name, neither the links that the tenants mean nor those that
   events follow ever have a cycle.
   */
  lemma {:induction false} RegistryStaysAcyclic(aliases: Aliases, r: Registry, requests: seq<Request>)
    requires Inv(aliases, r) && ProperRun(aliases, r, requests)
    ensures !HasCycle(TenantLinks(aliases, HandleAll(aliases, r, requests).actors))
    ensures !HasCycle(EventLinks(aliases, HandleAll(aliases, r, requests).actors))
    ensures Inv(aliases, HandleAll(aliases, r, requests))
    decreases |requests|
  {
    if requests != [] {
      HandleKeepsInv(aliases, r, requests[0]);
      RegistryStaysAcyclic(aliases, Handle(aliases, r, requests[0]), requests[1..]);
    } else {
      EventsFollowTenantCycles(aliases, r.actors, r.issued);
    }
  }

  lemma EmptyRegistryIsAcyclic(aliases: Aliases)
    ensures Inv(aliases, EMPTY)
  {
    forall x ensures !OnCycle(map[], x) {
      if OnCycle(map[], x) { CycleNodesHaveLinks(map[], x); }
    }
    assert TenantLinks(aliases, map[]) == map[];
  }

  // ---------------------------------------------------------------------------------------------
  // When no id spells another tenant's actor
  // ---------------------------------------------------------------------------------------------

  predicate FreshRequest(r: Registry, request: Request) {
    request.Register? ==> DbId(request.tenant, request.id) !in r.issued
  }

  /** All tenants are plain: nothing is asked of ids, links and aliases. */
  ghost predicate PlainTenantsRun(aliases: Aliases, r: Registry, requests: seq<Request>)
    decreases |requests|
  {
    requests == [] ||
    (PlainTenant(requests[0].tenant) && FreshRequest(r, requests[0]) &&
     PlainTenantsRun(aliases, Handle(aliases, r, requests[0]), requests[1..]))
  }

  predicate PlainTenantsIssued(issued: Issued) {
    forall d :: d in issued ==> PlainTenant(issued[d]) && InTenant(issued[d], d)
  }

  lemma {:induction false} PlainTenantsRunIsProper(aliases: Aliases, r: Registry, requests: seq<Request>)
    requires PlainTenantsIssued(r.issued) && PlainTenantsRun(aliases, r, requests)
    ensures ProperRun(aliases, r, requests)
    decreases |requests|
  {
    if requests != [] {
      var request := requests[0];
      var issued := WithRequest(r.issued, request);
      var dbid := DbId(request.tenant, request.id);
      DbIdInTenant(request.tenant, request.id);
      forall id ensures SpellsNoOther(issued, id) {
        PlainTenantsSpell(issued, id);
      }
      if dbid in r.issued {
        TenantIsUnique(r.issued[dbid], request.tenant, dbid);
      }
      PlainTenantsRunIsProper(aliases, Handle(aliases, r, request), requests[1..]);
    }
  }

  predicate PlainLink(link: Link) {
    link.ById? ==> PlainId(link.id)
  }

  predicate PlainAliases(aliases: Aliases) {
    forall a :: a in aliases ==> PlainId(aliases[a])
  }

  /** All ids are plain, as the id library makes them: nothing is asked of the tenants. */
  ghost predicate PlainIdsRun(aliases: Aliases, r: Registry, requests: seq<Request>)
    decreases |requests|
  {
    requests == [] ||
    (PlainId(requests[0].id) && PlainLink(LinkOf(requests[0])) && FreshRequest(r, requests[0]) &&
     PlainIdsRun(aliases, Handle(aliases, r, requests[0]), requests[1..]))
  }

  ghost predicate HasPlainIdIn(tenant: string, d: string) {
    exists id :: PlainId(id) && d == DbId(tenant, id)
  }

  ghost predicate PlainIdsIssued(issued: Issued) {
    forall d :: d in issued ==> HasPlainIdIn(issued[d], d)
  }

  lemma PlainIdIsRead(issued: Issued, tenant: string, id: string)
    requires PlainIdsIssued(issued) && PlainId(id)
    ensures NotMisread(issued, tenant, id)
  {
    var d := DbId(tenant, id);
    if d in issued {
      assert HasPlainIdIn(issued[d], d);
      var id' :| PlainId(id') && d == DbId(issued[d], id');
      PlainIdsAreUnique(tenant, issued[d], id, id');
    }
  }

  lemma PlainIdsSpell(issued: Issued, id: string)
    requires PlainIdsIssued(issued) && PlainId(id)
    ensures SpellsNoOther(issued, id)
  {
    forall t ensures NotMisread(issued, t, id) {
      PlainIdIsRead(issued, t, id);
    }
  }

  lemma {:induction false} PlainIdsRunIsProper(aliases: Aliases, r: Registry, requests: seq<Request>)
    requires PlainAliases(aliases) && PlainIdsIssued(r.issued) && PlainIdsRun(aliases, r, requests)
    requires forall k :: k in r.actors ==> PlainLink(r.actors[k].link)
    ensures ProperRun(aliases, r, requests)
    decreases |requests|
  {
    if requests != [] {
      var request := requests[0];
      var issued := WithRequest(r.issued, request);
      var dbid := DbId(request.tenant, request.id);
      assert HasPlainIdIn(request.tenant, dbid);
      forall id | PlainId(id) ensures SpellsNoOther(issued, id) {
        PlainIdsSpell(issued, id);
      }
      PlainIdIsRead(r.issued, request.tenant, request.id);
      PlainIdsRunIsProper(aliases, Handle(aliases, r, request), requests[1..]);
    }
  }

  /** So with plain tenants, or else with plain ids, events never go round, after any sequence of requests. */
  lemma PlainRunsStayAcyclic(aliases: Aliases, requests: seq<Request>)
    requires PlainTenantsRun(aliases, EMPTY, requests)
             || (PlainAliases(aliases) && PlainIdsRun(aliases, EMPTY, requests))
    ensures !HasCycle(EventLinks(aliases, HandleAll(aliases, EMPTY, requests).actors))
  {
    EmptyRegistryIsAcyclic(aliases);
    if PlainTenantsRun(aliases, EMPTY, requests) {
      PlainTenantsRunIsProper(aliases, EMPTY, requests);
    } else {
      PlainIdsRunIsProper(aliases, EMPTY, requests);
    }
    RegistryStaysAcyclic(aliases, EMPTY, requests);
  }

  // ---------------------------------------------------------------------------------------------
  // When an alias does
  // ---------------------------------------------------------------------------------------------

  /** Alias "foo" of tenant "a" spells actor "x" of tenant "a_b"; alias "g" names two actors in the two tenants. */
  const MISSPELLED: Aliases := map["a_foo" := "b_x", "a_g" := "y", "a_b_g" := "w"]

  const W := Actor("a_b", "w", NoLink)
  const Y := Actor("a", "y", NoLink)
  const X := Actor("a_b", "x", ByAlias("g"))

  lemma MisspelledIds()
    ensures DbId("a_b", "w") == "a_b_w" && DbId("a", "y") == "a_y" && DbId("a_b", "x") == "a_b_x"
    ensures DbId("a", "b_x") == "a_b_x" && DbId("a", "foo") == "a_foo" && DbId("a", "g") == "a_g"
    ensures DbId("a_b", "g") == "a_b_g" && DbId("a", "w") == "a_w"
    ensures EventTenant("a_y") == "a" && EventTenant("a_b_x") == "a"
  {
    EventTenantOf("a", "y");
    assert DbId("a", "b_x") == "a_b_x";
    EventTenantOf("a", "b_x");
  }

  /** Two actors are registered, and a third that links to the first. */
  lemma MisspelledRegistrations() returns (requests: seq<Request>)
    ensures PlainIdsRun(MISSPELLED, EMPTY, requests)
    ensures HandleAll(MISSPELLED, EMPTY, requests)
         == Registry(map["a_b_w" := W, "a_y" := Y, "a_b_x" := X], {"a_b_w", "a_y", "a_b_x"},
                     map["a_b_w" := "a_b", "a_y" := "a", "a_b_x" := "a_b"])
  {
    MisspelledIds();
    var w, y, x := Register("a_b", "w", NoLink), Register("a", "y", NoLink), Register("a_b", "x", ByAlias("g"));
    requests := [w, y, x];
    var r1 := Handle(MISSPELLED, EMPTY, w);
    var r2 := Handle(MISSPELLED, r1, y);
    var r3 := Handle(MISSPELLED, r2, x);
    assert requests[1..] == [y, x] && [y, x][1..] == [x] && [x][1..] == [];
    assert HandleAll(MISSPELLED, r2, [x]) == HandleAll(MISSPELLED, r3, []) == r3;
    assert HandleAll(MISSPELLED, r1, [y, x]) == r3;
    assert PlainIdsRun(MISSPELLED, r3, []);
    assert PlainIdsRun(MISSPELLED, r2, [x]);
    assert PlainIdsRun(MISSPELLED, r1, [y, x]);
  }

  lemma MisspelledCheck(actors: Actors)
    requires actors == map["a_b_w" := W, "a_y" := Y, "a_b_x" := X]
    ensures CheckedLinks(MISSPELLED, actors, "a", "a_y", "a_b_x") == map["a_y" := "a_b_x", "a_b_x" := "a_w"]
  {
    MisspelledIds();
  }

  /** The update that links the second actor to the third passes the check. */
  lemma MisspelledUpdateIsAccepted(r: Registry)
    requires r.actors == map["a_b_w" := W, "a_y" := Y, "a_b_x" := X] && r.permissions == {"a_b_w", "a_y", "a_b_x"}
    ensures Respond(MISSPELLED, r, Update("a", "y", ByAlias("foo"))) == Done
  {
    MisspelledIds();
    MisspelledCheck(r.actors);
    TwoLinksAreAcyclic("a_y", "a_b_x", "a_w");
  }

  lemma {:induction false} OneMoreRequest(aliases: Aliases, r: Registry, requests: seq<Request>, request: Request)
    requires PlainIdsRun(aliases, r, requests)
    requires PlainId(request.id) && !request.Register? && PlainLink(LinkOf(request))
    ensures PlainIdsRun(aliases, r, requests + [request])
    ensures HandleAll(aliases, r, requests + [request]) == Handle(aliases, HandleAll(aliases, r, requests), request)
    decreases |requests|
  {
    if requests == [] {
      var next := Handle(aliases, r, request);
      assert [request][1..] == [] && HandleAll(aliases, next, []) == next && PlainIdsRun(aliases, next, []);
      assert requests + [request] == [request];
    } else {
      assert (requests + [request])[1..] == requests[1..] + [request];
      OneMoreRequest(aliases, Handle(aliases, r, requests[0]), requests[1..], request);
    }
  }

  /**
   The premise on aliases is needed: with an alias that spells another tenant's actor, requests with plain ids lead to a
   registry in which events go round.
   */
  lemma MisspellingClosesCycle() returns (requests: seq<Request>)
    ensures PlainIdsRun(MISSPELLED, EMPTY, requests)
    ensures HasCycle(EventLinks(MISSPELLED, HandleAll(MISSPELLED, EMPTY, requests).actors))
  {
    var before := MisspelledRegistrations();
    var update := Update("a", "y", ByAlias("foo"));
    var r := HandleAll(MISSPELLED, EMPTY, before);
    requests := before + [update];
    OneMoreRequest(MISSPELLED, EMPTY, before, update);
    MisspelledUpdateIsAccepted(r);
    MisspelledIds();
    var actors := Handle(MISSPELLED, r, update).actors;
    TwoCycle(EventLinks(MISSPELLED, actors), "a_y", "a_b_x");
  }

  // ---------------------------------------------------------------------------------------------
  // Ids that are given only once
  // ---------------------------------------------------------------------------------------------

  /** The database ids that end in an underscore and this id. */
  predicate HasId(dbid: string, id: string) {
    |dbid| > |id| && dbid[|dbid|-|id|..] == id && dbid[|dbid|-|id|-1] == '_'
  }

  /** An actor id has no underscore, and one that is given to a new actor was never given to any, in whatever tenant. */
  predicate ProperId(r: Registry, request: Request) {
    PlainId(request.id) && (request.Register? ==> forall d :: d in r.issued ==> !HasId(d, request.id))
  }

  ghost predicate ProperIdRun(aliases: Aliases, r: Registry, requests: seq<Request>)
    decreases |requests|
  {
    requests == [] ||
    (ProperId(r, requests[0]) && ProperIdRun(aliases, Handle(aliases, r, requests[0]), requests[1..]))
  }

  ghost predicate HasPlainId(dbid: string) {
    exists id :: PlainId(id) && HasId(dbid, id)
  }

  ghost predicate IdsOnce(issued: set<string>) {
    (forall d :: d in issued ==> HasPlainId(d)) &&
    (forall d, d', id :: d in issued && d' in issued && PlainId(id) && HasId(d, id) && HasId(d', id) ==> d == d')
  }

  lemma DbIdHasId(tenant: string, id: string)
    ensures HasId(DbId(tenant, id), id)
  {
  }

  lemma EndingIsPlain(d: string, id: string, i: nat)
    requires PlainId(id) && HasId(d, id) && |d| - |id| <= i < |d|
    ensures d[i] != '_'
  {
    assert d[i] == d[|d|-|id|..][i-(|d|-|id|)];
  }

  /** Whatever the tenant, the same plain id ends both database ids. */
  lemma SameEnding(t: string, u: string, z: string, id: string)
    requires PlainId(id) && HasId(DbId(t, z), id)
    ensures HasId(DbId(u, z), id)
  {
    var d, e := DbId(t, z), DbId(u, z);
    if |id| > |z| {
      EndingIsPlain(d, id, |t|);
    }
    assert d[|d|-|id|..] == e[|e|-|id|..];
    assert |id| < |z| ==> e[|e|-|id|-1] == z[|z|-|id|-1] == d[|d|-|id|-1];
  }

  lemma OnceIsUnique(issued: set<string>)
    requires IdsOnce(issued)
    ensures IdsUnique(issued)
  {
    forall t, u, z | DbId(t, z) in issued && DbId(u, z) in issued ensures t == u {
      assert HasPlainId(DbId(t, z));
      var id :| PlainId(id) && HasId(DbId(t, z), id);
      SameEnding(t, u, z, id);
      assert DbId(t, z)[..|t|] == t && DbId(u, z)[..|u|] == u;
    }
  }

  ghost predicate IdsInv(aliases: Aliases, r: Registry) {
    LinksIssued(aliases, r.actors, r.issued.Keys) && r.permissions <= r.issued.Keys && IdsOnce(r.issued.Keys) &&
    forall k :: k in r.actors ==> PlainId(r.actors[k].id)
  }

  lemma NewIdKeepsIdsOnce(issued: set<string>, tenant: string, id: string)
    requires IdsOnce(issued) && PlainId(id) && forall d :: d in issued ==> !HasId(d, id)
    ensures IdsOnce(issued + {DbId(tenant, id)})
  {
    var dbid := DbId(tenant, id);
    DbIdHasId(tenant, id);
    forall other | PlainId(other) && HasId(dbid, other) ensures other == id {
      PlainIdsAreUnique(tenant, dbid[..|dbid|-|other|-1], id, other);
    }
  }

  lemma RegisterKeepsIds(aliases: Aliases, r: Registry, tenant: string, id: string, link: Link)
    requires IdsInv(aliases, r) && ProperId(r, Register(tenant, id, link))
    requires Respond(aliases, r, Register(tenant, id, link)) == Done
    ensures IdsInv(aliases, Handle(aliases, r, Register(tenant, id, link)))
  {
    NewIdKeepsIdsOnce(r.issued.Keys, tenant, id);
    assert Handle(aliases, r, Register(tenant, id, link)).issued.Keys == r.issued.Keys + {DbId(tenant, id)};
  }

  lemma UpdateKeepsIds(aliases: Aliases, r: Registry, tenant: string, id: string, link: Link)
    requires IdsInv(aliases, r) && ProperId(r, Update(tenant, id, link))
    requires Respond(aliases, r, Update(tenant, id, link)) == Done
    ensures IdsInv(aliases, Handle(aliases, r, Update(tenant, id, link)))
  {
    var dbid := DbId(tenant, id);
    PlainIdsAreUnique(tenant, r.actors[dbid].tenant, id, r.actors[dbid].id);
  }

  lemma HandleKeepsIds(aliases: Aliases, r: Registry, request: Request)
    requires IdsInv(aliases, r) && ProperId(r, request)
    ensures IdsInv(aliases, Handle(aliases, r, request))
  {
    if Respond(aliases, r, request) == Done {
      match request
      case Register(tenant, id, link) => RegisterKeepsIds(aliases, r, tenant, id, link);
      case Update(tenant, id, link) => UpdateKeepsIds(aliases, r, tenant, id, link);
      case Remove(_, _) =>
    }
  }

  lemma {:induction false} RunKeepsIds(aliases: Aliases, r: Registry, requests: seq<Request>)
    requires IdsInv(aliases, r) && ProperIdRun(aliases, r, requests)
    ensures IdsInv(aliases, HandleAll(aliases, r, requests))
    decreases |requests|
  {
    if requests != [] {
      HandleKeepsIds(aliases, r, requests[0]);
      RunKeepsIds(aliases, Handle(aliases, r, requests[0]), requests[1..]);
    }
  }

  /**
   After any sequence of requests of tenants of any name, the check decides exactly whether the requester's own actors
   would have a cycle with the proposed link.
   */
  lemma CheckDecidesInEveryRun(aliases: Aliases, requests: seq<Request>, tenant: string, dbid: string, target: string)
    requires ProperIdRun(aliases, EMPTY, requests)
    requires dbid in HandleAll(aliases, EMPTY, requests).actors
    ensures var actors := HandleAll(aliases, EMPTY, requests).actors;
            (HasCycle(CheckedLinks(aliases, actors, tenant, dbid, target))
             <==> HasCycle(OwnLinks(aliases, actors, tenant, dbid, target)))
  {
    RunKeepsIds(aliases, EMPTY, requests);
    var r := HandleAll(aliases, EMPTY, requests);
    OnceIsUnique(r.issued.Keys);
    CheckDecidesOwnTenant(aliases, r.actors, r.issued.Keys, tenant, dbid, target);
  }

  // ---------------------------------------------------------------------------------------------
  // What becomes of a removed actor
  // ---------------------------------------------------------------------------------------------

  predicate IsGone(r: Registry, dbid: string) {
    dbid in r.issued && dbid !in r.actors && dbid !in r.permissions
  }

  lemma GoneStaysGone(aliases: Aliases, r: Registry, request: Request, dbid: string)
    requires Proper(aliases, r, request) && IsGone(r, dbid)
    ensures IsGone(Handle(aliases, r, request), dbid)
  {
  }

  lemma {:induction false} GoneForGood(aliases: Aliases, r: Registry, requests: seq<Request>, dbid: string)
    requires ProperRun(aliases, r, requests) && IsGone(r, dbid)
    ensures IsGone(HandleAll(aliases, r, requests), dbid)
    decreases |requests|
  {
    if requests != [] {
      GoneStaysGone(aliases, r, requests[0], dbid);
      GoneForGood(aliases, Handle(aliases, r, requests[0]), requests[1..], dbid);
    }
  }

  /**
   A removed actor never comes back, whatever requests follow: it is not stored, no event leaves from it, and no link to
   it is accepted, neither from a new actor nor from an old one.
   */
  lemma RemovedForGood(aliases: Aliases, r: Registry, tenant: string, id: string, requests: seq<Request>)
    requires DbId(tenant, id) in r.issued
    requires ProperRun(aliases, Handle(aliases, r, Remove(tenant, id)), requests)
    ensures var dbid := DbId(tenant, id);
            var end := HandleAll(aliases, Handle(aliases, r, Remove(tenant, id)), requests);
            dbid !in end.actors && dbid !in end.permissions &&
            dbid !in EventLinks(aliases, end.actors) && dbid !in TenantLinks(aliases, end.actors) &&
            forall t: string, other: string, link: Link |
              !link.NoLink? && Resolve(aliases, t, link).Some? && DbId(t, Resolve(aliases, t, link).value) == dbid ::
              Respond(aliases, end, Register(t, other, link)) == InvalidLink &&
              (DbId(t, other) in end.actors ==> Respond(aliases, end, Update(t, other, link)) == InvalidLink)
  {
    GoneForGood(aliases, Handle(aliases, r, Remove(tenant, id)), requests, DbId(tenant, id));
  }

  /** What one request does to the registry, in full. */
  lemma RequestsStore(aliases: Aliases, r: Registry, tenant: string, id: string, link: Link)
    ensures var dbid := DbId(tenant, id);
            var registered := Handle(aliases, r, Register(tenant, id, link));
            var removed := Handle(aliases, r, Remove(tenant, id));
            (if Respond(aliases, r, Register(tenant, id, link)) == Done then
               registered.actors == r.actors[dbid := Actor(tenant, id, link)] &&
               registered.permissions == r.permissions + {dbid} && registered.issued == r.issued[dbid := tenant]
             else registered == r) &&
            removed.actors == r.actors - {dbid} && removed.permissions == r.permissions - {dbid} &&
            removed.issued == r.issued
    ensures var dbid := DbId(tenant, id);
            var updated := Handle(aliases, r, Update(tenant, id, link));
            if Respond(aliases, r, Update(tenant, id, link)) == Done then
              dbid in r.actors && updated.actors == r.actors[dbid := r.actors[dbid].(link := link)] &&
              updated.permissions == r.permissions && updated.issued == r.issued
            else updated == r
  {
  }

  /** A registration is answered without any look at cycles. */
  lemma NewLinkIsAccepted(aliases: Aliases, r: Registry, tenant: string, id: string, link: Link)
    ensures var outcome := Respond(aliases, r, Register(tenant, id, link));
            (outcome == Done || outcome == InvalidLink) &&
            (outcome == Done <==>
             link.NoLink? || (Resolve(aliases, tenant, link).Some? &&
                              DbId(tenant, Resolve(aliases, tenant, link).value) in r.permissions))
  {
  }

  // ---------------------------------------------------------------------------------------------
  // The resources
  // ---------------------------------------------------------------------------------------------

  class ActorResources {
    var aliases: Aliases
    var actors: Actors
    var permissions: set<string>
    ghost var issued: Issued

    ghost function State(): Registry
      reads this
    {
      Registry(actors, permissions, issued)
    }

    constructor (aliases: Aliases)
      ensures this.aliases == aliases && State() == EMPTY && Inv(aliases, State())
    {
      this.aliases := aliases;
      actors, permissions, issued := map[], {}, map[];
      new;
      EmptyRegistryIsAcyclic(aliases);
    }

    /** Builds the dictionary of links, actor by actor, and looks for a cycle in it. */
    method CheckForLinkCycles(tenant: string, dbid: string, target: string) returns (cyclic: bool)
      ensures cyclic <==> HasCycle(CheckedLinks(aliases, actors, tenant, dbid, target))
    {
      ghost var all := CheckedLinks(aliases, actors, tenant, dbid, target);
      var links := map[dbid := target];
      var rest := actors.Keys;
      while rest != {}
        invariant rest <= actors.Keys
        invariant dbid in links && links.Keys <= all.Keys
        invariant forall k :: k in all && k !in rest ==> k in links
        invariant forall k :: k in links ==> links[k] == all[k]
        decreases rest
      {
        var k :| k in rest;
        var resolved := Resolve(aliases, actors[k].tenant, actors[k].link);
        if resolved.Some? && k != dbid {
          links := links[k := DbId(tenant, resolved.value)];
        }
        rest := rest - {k};
      }
      assert links == all;
      cyclic := HasCycles(links);
    }

    method CheckLink(tenant: string, dbid: Option<string>, link: Link) returns (outcome: Outcome)
      ensures outcome == ValidateLink(aliases, State(), tenant, dbid, link)
    {
      if link.NoLink? { return Done; }
      var resolved := Resolve(aliases, tenant, link);
      if resolved.None? { return InvalidLink; }
      var target := DbId(tenant, resolved.value);
      if target !in permissions { return InvalidLink; }
      if dbid.None? { return Done; }
      if target == dbid.value { return SelfLink; }
      var cyclic := CheckForLinkCycles(tenant, dbid.value, target);
      outcome := if cyclic then LinkCycle else Done;
    }

    method Post(tenant: string, id: string, link: Link) returns (outcome: Outcome)
      requires Inv(aliases, State()) && Proper(aliases, State(), Register(tenant, id, link))
      modifies this
      ensures aliases == old(aliases) && Inv(aliases, State())
      ensures State() == Handle(aliases, old(State()), Register(tenant, id, link))
      ensures outcome == Respond(aliases, old(State()), Register(tenant, id, link))
      // The actor is stored as given, with a permissions document, unless its link names no actor that has one.
      ensures outcome == Done || outcome == InvalidLink
      ensures outcome == Done <==>
                link.NoLink? || (Resolve(aliases, tenant, link).Some? &&
                                 DbId(tenant, Resolve(aliases, tenant, link).value) in old(permissions))
      ensures actors
           == if outcome == Done then old(actors)[DbId(tenant, id) := Actor(tenant, id, link)] else old(actors)
      ensures permissions == if outcome == Done then old(permissions) + {DbId(tenant, id)} else old(permissions)
    {
      ghost var next := Handle(aliases, State(), Register(tenant, id, link));
      HandleKeepsInv(aliases, State(), Register(tenant, id, link));
      NewLinkIsAccepted(aliases, State(), tenant, id, link);
      RequestsStore(aliases, State(), tenant, id, link);
      outcome := CheckLink(tenant, None, link);
      if outcome != Done { return; }
      var dbid := DbId(tenant, id);
      actors := actors[dbid := Actor(tenant, id, link)];
      permissions, issued := permissions + {dbid}, issued[dbid := tenant];
      assert State() == next;
    }

    method Put(tenant: string, id: string, link: Link) returns (outcome: Outcome)
      requires Inv(aliases, State()) && Proper(aliases, State(), Update(tenant, id, link))
      modifies this`actors
      ensures Inv(aliases, State())
      ensures State() == Handle(aliases, old(State()), Update(tenant, id, link))
      ensures outcome == Respond(aliases, old(State()), Update(tenant, id, link))
      // An accepted update replaces the link and nothing else; a refused one changes nothing.
      ensures outcome == Done ==>
                DbId(tenant, id) in old(actors) &&
                actors == old(actors)[DbId(tenant, id) := old(actors)[DbId(tenant, id)].(link := link)]
      ensures outcome != Done ==> actors == old(actors)
      // The answers, in the order of the tests.
      ensures var dbid := DbId(tenant, id);
              var target := Resolve(aliases, tenant, link);
              if dbid !in old(actors) then outcome == NoSuchActor
              else if link.NoLink? then outcome == Done
              else if target.None? || DbId(tenant, target.value) !in permissions then outcome == InvalidLink
              else if DbId(tenant, target.value) == dbid then outcome == SelfLink
              else outcome == if HasCycle(CheckedLinks(aliases, old(actors), tenant, dbid, DbId(tenant, target.value)))
                              then LinkCycle else Done
    {
      HandleKeepsInv(aliases, State(), Update(tenant, id, link));
      var dbid := DbId(tenant, id);
      if dbid !in actors { return NoSuchActor; }
      outcome := CheckLink(tenant, Some(dbid), link);
      if outcome != Done { return; }
      actors := Relinked(actors, dbid, link);
    }

    method Delete(tenant: string, id: string)
      requires Inv(aliases, State()) && Proper(aliases, State(), Remove(tenant, id))
      modifies this`actors, this`permissions
      ensures Inv(aliases, State())
      ensures State() == Handle(aliases, old(State()), Remove(tenant, id))
      // The actor and its permissions document are gone, and no other.
      ensures DbId(tenant, id) !in actors && DbId(tenant, id) !in permissions
      ensures actors == old(actors) - {DbId(tenant, id)} && permissions == old(permissions) - {DbId(tenant, id)}
    {
      HandleKeepsInv(aliases, State(), Remove(tenant, id));
      var dbid := DbId(tenant, id);
      actors, permissions := actors - {dbid}, permissions - {dbid};
    }
  }
}
