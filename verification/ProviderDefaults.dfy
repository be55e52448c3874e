/** LLM providers and their default flags: the six administrative use cases, the selection of a
    provider, and what they keep true. */
module ProviderDefaults {
  import opened Outcomes

  datatype Role = Vision | Qa

  /** `kind` is the legacy `provider_type` column. */
  datatype Provider = Provider(
    enabled: bool, vision: bool, qa: bool, toolCalling: bool, defaultVision: bool, defaultQa: bool, kind: Role)

  /** A request body: the fields that the client has set. */
  datatype Dump = Dump(
    enabled: Option<bool>, vision: Option<bool>, qa: Option<bool>, toolCalling: Option<bool>,
    defaultVision: Option<bool>, defaultQa: Option<bool>)

  type Table = map<nat, Provider>

  datatype Rejection =
    | CapabilityRequired | QaRequiresToolCalling | CannotDisableDefault | NotFound | NotCapable
    | CannotDeleteDefault | InUse | HasReferences

  function Or(o: Option<bool>, otherwise: bool): bool {
    if o.Some? then o.value else otherwise
  }

  function KindOf(vision: bool, qa: bool): Role {
    if vision && !qa then Vision else Qa
  }

  predicate Capable(p: Provider, role: Role) {
    if role.Vision? then p.vision else p.qa
  }

  predicate IsDefault(p: Provider, role: Role) {
    if role.Vision? then p.defaultVision else p.defaultQa
  }

  // ---------------------------------------------------------------------------
  // The invariant
  // ---------------------------------------------------------------------------

  predicate ProviderOk(p: Provider) {
    && (p.vision || p.qa)
    && (p.qa ==> p.toolCalling)
    && (p.defaultVision ==> p.vision && p.enabled)
    && (p.defaultQa ==> p.qa && p.enabled)
    && p.kind == KindOf(p.vision, p.qa)
  }

  /** At most one default per role. */
  ghost predicate OneDefault(t: Table) {
    forall i, j, role :: i in t && j in t && IsDefault(t[i], role) && IsDefault(t[j], role) ==> i == j
  }

  ghost predicate Inv(t: Table) {
    (forall id :: id in t ==> ProviderOk(t[id])) && OneDefault(t)
  }

  // ---------------------------------------------------------------------------
  // What each use case amounts to
  // ---------------------------------------------------------------------------

  /** A created provider: a default flag counts only together with its capability, and then
      enables the provider. */
  function FromDump(d: Dump): Provider {
    var vision, qa := Or(d.vision, false), Or(d.qa, true);
    var defaultVision, defaultQa := vision && Or(d.defaultVision, false), qa && Or(d.defaultQa, false);
    Provider(defaultVision || defaultQa || Or(d.enabled, true), vision, qa, Or(d.toolCalling, false),
             defaultVision, defaultQa, KindOf(vision, qa))
  }

  /** An updated provider: whoever is or becomes a default keeps the capability and is enabled,
      even when the request says otherwise; a request to drop the capability costs the flag. */
  function Merged(p: Provider, d: Dump): Provider {
    var hasVision, hasQa := Or(d.vision, p.vision), Or(d.qa, p.qa);
    var wantsVision, wantsQa := Or(d.defaultVision, p.defaultVision), Or(d.defaultQa, p.defaultQa);
    Provider(wantsVision || wantsQa || Or(d.enabled, p.enabled),
             hasVision || wantsVision, hasQa || wantsQa, Or(d.toolCalling, p.toolCalling),
             hasVision && wantsVision, hasQa && wantsQa,
             KindOf(hasVision || wantsVision, hasQa || wantsQa))
  }

  function Check(p: Provider): Option<Rejection> {
    if !p.vision && !p.qa then Some(CapabilityRequired)
    else if p.qa && !p.toolCalling then Some(QaRequiresToolCalling)
    else None
  }

  function Undefaulted(p: Provider, vision: bool, qa: bool): Provider {
    p.(defaultVision := p.defaultVision && !vision, defaultQa := p.defaultQa && !qa)
  }

  /** Store `p` under `id`; wherever it is a default, every other capable row stops being one. */
  function Store(t: Table, id: nat, p: Provider): Table {
    map j | j in t.Keys + {id} ::
      if j == id then p else Undefaulted(t[j], p.defaultVision && t[j].vision, p.defaultQa && t[j].qa)
  }

  lemma StoreForgets(t: Table, id: nat, p: Provider)
    ensures Store(t[id := p], id, p) == Store(t, id, p)
  {
  }

  function MadeDefault(p: Provider, role: Role): Provider {
    var q := p.(enabled := true, kind := if p.qa then Qa else Vision);
    if role.Vision? then q.(defaultVision := true) else q.(defaultQa := true)
  }

  /** Setting the default clears the flag of this role only. */
  function StoreDefault(t: Table, id: nat, role: Role): Table
    requires id in t
  {
    map j | j in t.Keys ::
      if j == id then MadeDefault(t[id], role)
      else Undefaulted(t[j], role.Vision? && t[j].vision, role.Qa? && t[j].qa)
  }

  /** An id that `find_enabled_provider` may return: an enabled default if there is one, or else
      any enabled capable provider; the query has no order. */
  ghost predicate MayBeActive(t: Table, role: Role, active: Option<nat>) {
    if exists id :: IsActiveDefault(t, id, role) then active.Some? && IsActiveDefault(t, active.value, role)
    else if exists id :: Serves(t, id, role) then active.Some? && Serves(t, active.value, role)
    else active.None?
  }

  predicate Serves(t: Table, id: nat, role: Role) {
    id in t && t[id].enabled && Capable(t[id], role)
  }

  predicate IsActiveDefault(t: Table, id: nat, role: Role) {
    Serves(t, id, role) && IsDefault(t[id], role)
  }

  datatype Op =
    | Create(dump: Dump)
    | Update(id: nat, dump: Dump)
    | Delete(id: nat, activeVision: Option<nat>, activeQa: Option<nat>, referenced: bool)
    | SetDefault(id: nat, role: Role)
    | Enable(id: nat)
    | Disable(id: nat)

  /** Why a use case is refused, if it is. */
  function Refusal(t: Table, op: Op): Option<Rejection> {
    match op
    case Create(dump) => Check(FromDump(dump))
    case Update(id, dump) => if id !in t then Some(NotFound) else Check(Merged(t[id], dump))
    case Delete(id, activeVision, activeQa, referenced) =>
      if id !in t then None
      else if t[id].defaultVision || t[id].defaultQa then Some(CannotDeleteDefault)
      else if activeVision == Some(id) || activeQa == Some(id) then Some(InUse)
      else if referenced then Some(HasReferences)
      else None
    case SetDefault(id, role) =>
      if id !in t then Some(NotFound)
      else if !Capable(t[id], role) then Some(NotCapable)
      else if role.Qa? && !t[id].toolCalling then Some(QaRequiresToolCalling)
      else None
    case Enable(_) => None
    case Disable(id) =>
      if id in t && (t[id].defaultVision || t[id].defaultQa) then Some(CannotDisableDefault) else None
  }

  function Apply(t: Table, newId: nat, op: Op): Table {
    if Refusal(t, op).Some? then t
    else
      match op
      case Create(dump) => Store(t, newId, FromDump(dump))
      case Update(id, dump) => Store(t, id, Merged(t[id], dump))
      case Delete(id, _, _, _) => t - {id}
      case SetDefault(id, role) => StoreDefault(t, id, role)
      case Enable(id) => if id in t then t[id := t[id].(enabled := true)] else t
      case Disable(id) => if id in t then t[id := t[id].(enabled := false)] else t
  }

  // ---------------------------------------------------------------------------
  // The use cases, statement by statement
  // ---------------------------------------------------------------------------

  class ProviderAdmin {
    var rows: Table

    constructor (rows: Table)
      ensures this.rows == rows
    {
      this.rows := rows;
    }

    method ResetOtherDefaultProviders(id: nat)
      requires id in rows
      modifies this
      ensures rows == Store(old(rows), id, old(rows)[id])
    {
      var p := rows[id];
      if p.defaultVision {
        rows := map j | j in rows.Keys ::
          if j != id && rows[j].vision then rows[j].(defaultVision := false) else rows[j];
      }
      if p.defaultQa {
        rows := map j | j in rows.Keys ::
          if j != id && rows[j].qa then rows[j].(defaultQa := false) else rows[j];
      }
    }

    method CreateProvider(request: Dump, newId: nat) returns (r: Result<nat, Rejection>)
      requires newId !in rows
      modifies this
      ensures rows == Apply(old(rows), newId, Create(request))
      ensures r == match Refusal(old(rows), Create(request)) case Some(why) => Err(why) case None => Ok(newId)
    {
      var dump := request;
      if !Or(dump.vision, false) {
        dump := dump.(defaultVision := Some(false));
      }
      if !Or(dump.qa, true) {
        dump := dump.(defaultQa := Some(false));
      }
      if Or(dump.defaultVision, false) {
        dump := dump.(vision := Some(true), enabled := Some(true));
      }
      if Or(dump.defaultQa, false) {
        dump := dump.(qa := Some(true), enabled := Some(true));
      }
      var vision, qa := Or(dump.vision, false), Or(dump.qa, true);
      if !vision && !qa {
        return Err(CapabilityRequired);
      }
      if qa && !Or(dump.toolCalling, false) {
        return Err(QaRequiresToolCalling);
      }
      var kind := if vision && !qa then Vision else Qa;
      var p := Provider(Or(dump.enabled, true), vision, qa, Or(dump.toolCalling, false),
                        Or(dump.defaultVision, false), Or(dump.defaultQa, false), kind);
      rows := rows[newId := p];
      ResetOtherDefaultProviders(newId);
      return Ok(newId);
    }

    /** The fourth error code, a default that would be disabled, never comes back: by the time
        it is checked the request has been overridden. */
    method UpdateProvider(id: nat, request: Dump) returns (r: Result<nat, Rejection>)
      modifies this
      ensures rows == Apply(old(rows), 0, Update(id, request))
      ensures r == match Refusal(old(rows), Update(id, request)) case Some(why) => Err(why) case None => Ok(id)
      ensures r.Err? ==> r.error != CannotDisableDefault
    {
      hide Store;
      if id !in rows {
        return Err(NotFound);
      }
      var p, dump := rows[id], request;
      var nextVision, nextQa := Or(dump.vision, p.vision), Or(dump.qa, p.qa);
      var nextDefaultVision, nextDefaultQa := Or(dump.defaultVision, p.defaultVision), Or(dump.defaultQa, p.defaultQa);
      if !nextVision {
        dump := dump.(defaultVision := Some(false));
      }
      if !nextQa {
        dump := dump.(defaultQa := Some(false));
      }
      if nextDefaultVision {
        dump := dump.(vision := Some(true), enabled := Some(true));
      }
      if nextDefaultQa {
        dump := dump.(qa := Some(true), enabled := Some(true));
      }
      var vision, qa := Or(dump.vision, p.vision), Or(dump.qa, p.qa);
      if !vision && !qa {
        return Err(CapabilityRequired);
      }
      if qa && !Or(dump.toolCalling, p.toolCalling) {
        return Err(QaRequiresToolCalling);
      }
      var wouldBeDefault := (nextDefaultVision && vision) || (nextDefaultQa && qa);
      if wouldBeDefault && dump.enabled == Some(false) {
        return Err(CannotDisableDefault);
      }
      var kind := if vision && !qa then Vision else Qa;
      p := Provider(Or(dump.enabled, p.enabled), vision, qa, Or(dump.toolCalling, p.toolCalling),
                    Or(dump.defaultVision, p.defaultVision), Or(dump.defaultQa, p.defaultQa), kind);
      assert p == Merged(rows[id], request);
      StoreForgets(rows, id, p);
      rows := rows[id := p];
      ResetOtherDefaultProviders(id);
      return Ok(id);
    }

    method FindEnabledProvider(role: Role) returns (active: Option<nat>)
      ensures MayBeActive(rows, role, active)
    {
      var defaults := set id | id in rows.Keys && IsActiveDefault(rows, id, role);
      if defaults != {} {
        var id :| id in defaults;
        assert IsActiveDefault(rows, id, role);
        return Some(id);
      }
      assert forall id :: IsActiveDefault(rows, id, role) ==> id in defaults;
      var serving := set id | id in rows.Keys && Serves(rows, id, role);
      assert forall id :: Serves(rows, id, role) ==> id in serving;
      if serving != {} {
        var id :| id in serving;
        assert Serves(rows, id, role);
        return Some(id);
      }
      return None;
    }

    method DeleteProvider(id: nat, referenced: bool)
      returns (r: Result<(), Rejection>, ghost activeVision: Option<nat>, ghost activeQa: Option<nat>)
      modifies this
      ensures id in old(rows) && !old(rows)[id].defaultVision && !old(rows)[id].defaultQa ==>
        MayBeActive(old(rows), Vision, activeVision) && MayBeActive(old(rows), Qa, activeQa)
      ensures rows == Apply(old(rows), 0, Delete(id, activeVision, activeQa, referenced))
      ensures r == match Refusal(old(rows), Delete(id, activeVision, activeQa, referenced))
                   case Some(why) => Err(why) case None => Ok(())
    {
      activeVision, activeQa := None, None;
      if id !in rows {
        return Ok(()), activeVision, activeQa;
      }
      if rows[id].defaultVision || rows[id].defaultQa {
        return Err(CannotDeleteDefault), activeVision, activeQa;
      }
      var forVision := FindEnabledProvider(Vision);
      var forQa := FindEnabledProvider(Qa);
      activeVision, activeQa := forVision, forQa;
      if forVision == Some(id) || forQa == Some(id) {
        return Err(InUse), activeVision, activeQa;
      }
      if referenced {
        return Err(HasReferences), activeVision, activeQa;
      }
      rows := rows - {id};
      return Ok(()), activeVision, activeQa;
    }

    method SetDefaultProvider(id: nat, role: Role) returns (r: Result<nat, Rejection>)
      modifies this
      ensures rows == Apply(old(rows), 0, SetDefault(id, role))
      ensures r == match Refusal(old(rows), SetDefault(id, role)) case Some(why) => Err(why) case None => Ok(id)
    {
      hide Merged, FromDump, Check, Store, KindOf;
      if id !in rows {
        return Err(NotFound);
      }
      var p := rows[id];
      if !Capable(p, role) {
        return Err(NotCapable);
      }
      if role.Qa? && !p.toolCalling {
        return Err(QaRequiresToolCalling);
      }
      rows := map j | j in rows.Keys ::
        if j != id && Capable(rows[j], role)
        then (if role.Vision? then rows[j].(defaultVision := false) else rows[j].(defaultQa := false))
        else rows[j];
      p := if role.Vision? then p.(defaultVision := true) else p.(defaultQa := true);
      p := p.(enabled := true, kind := if !p.qa then Vision else Qa);
      rows := rows[id := p];
      return Ok(id);
    }

    method EnableProvider(id: nat)
      modifies this
      ensures rows == Apply(old(rows), 0, Enable(id))
    {
      if id in rows {
        rows := rows[id := rows[id].(enabled := true)];
      }
    }

    method DisableProvider(id: nat) returns (r: Result<(), Rejection>)
      modifies this
      ensures rows == Apply(old(rows), 0, Disable(id))
      ensures r == match Refusal(old(rows), Disable(id)) case Some(why) => Err(why) case None => Ok(())
    {
      if id in rows {
        if rows[id].defaultVision || rows[id].defaultQa {
          return Err(CannotDisableDefault);
        }
        rows := rows[id := rows[id].(enabled := false)];
      }
      return Ok(());
    }
  }

  // ---------------------------------------------------------------------------
  // Every sequence of use cases
  // ---------------------------------------------------------------------------

  ghost predicate Possible(t: Table, op: Op) {
    op.Delete? ==> MayBeActive(t, Vision, op.activeVision) && MayBeActive(t, Qa, op.activeQa)
  }

  lemma StoreKeepsInv(t: Table, id: nat, p: Provider)
    requires Inv(t) && ProviderOk(p)
    ensures Inv(Store(t, id, p))
  {
    var t' := Store(t, id, p);
    forall j | j in t'
      ensures ProviderOk(t'[j])
    {
      assert j != id ==> ProviderOk(t[j]);
    }
    forall j, role | j in t' && j != id && IsDefault(t'[j], role)
      ensures j in t && IsDefault(t[j], role) && !IsDefault(p, role)
    {
      assert ProviderOk(t[j]);
    }
    forall i, j, role | i in t' && j in t' && IsDefault(t'[i], role) && IsDefault(t'[j], role)
      ensures i == j
    {
      assert i != id ==> !IsDefault(p, role);
      assert j != id ==> !IsDefault(p, role);
      assert t'[id] == p;
    }
  }

  lemma StoreDefaultKeepsInv(t: Table, id: nat, role: Role)
    requires Inv(t) && id in t && Capable(t[id], role) && (role.Qa? ==> t[id].toolCalling)
    ensures Inv(StoreDefault(t, id, role))
  {
    var t' := StoreDefault(t, id, role);
    forall j | j in t'
      ensures ProviderOk(t'[j])
    {
      assert ProviderOk(t[j]);
    }
    forall j, r | j in t' && IsDefault(t'[j], r)
      ensures if r == role then j == id else IsDefault(t[j], r)
    {
      assert ProviderOk(t[j]);
    }
  }

  lemma StepKeepsInv(t: Table, newId: nat, op: Op)
    requires Inv(t)
    ensures Inv(Apply(t, newId, op))
  {
    match op {
      case Create(dump) =>
        if Check(FromDump(dump)).None? {
          StoreKeepsInv(t, newId, FromDump(dump));
        }
      case Update(id, dump) =>
        if id in t && Check(Merged(t[id], dump)).None? {
          StoreKeepsInv(t, id, Merged(t[id], dump));
        }
      case SetDefault(id, role) =>
        if Refusal(t, op).None? {
          StoreDefaultKeepsInv(t, id, role);
        }
      case _ => SmallStepKeepsInv(t, newId, op);
    }
  }

  lemma SmallStepKeepsInv(t: Table, newId: nat, op: Op)
    requires Inv(t) && (op.Delete? || op.Enable? || op.Disable?)
    ensures Inv(Apply(t, newId, op))
  {
  }

  /** A state is a table and the id sequence. */
  function Next(t: Table, next: nat, op: Op): (Table, nat) {
    (Apply(t, next, op), if op.Create? && Refusal(t, op).None? then next + 1 else next)
  }

  ghost predicate Runnable(t: Table, next: nat, ops: seq<Op>)
    decreases |ops|
  {
    ops == [] || (Possible(t, ops[0]) && Runnable(Next(t, next, ops[0]).0, Next(t, next, ops[0]).1, ops[1..]))
  }

  function After(t: Table, next: nat, ops: seq<Op>): Table
    decreases |ops|
  {
    if ops == [] then t else After(Next(t, next, ops[0]).0, Next(t, next, ops[0]).1, ops[1..])
  }

  /** After every sequence of use cases there is at most one default per role, every default is
      enabled and capable, question answering implies tool calling, and nobody is incapable. */
  lemma {:induction false} EverySequenceKeepsInv(t: Table, next: nat, ops: seq<Op>)
    requires Inv(t)
    ensures Inv(After(t, next, ops))
    decreases |ops|
  {
    hide Inv, Apply, Refusal;
    if ops != [] {
      StepKeepsInv(t, next, ops[0]);
      EverySequenceKeepsInv(Next(t, next, ops[0]).0, Next(t, next, ops[0]).1, ops[1..]);
    }
  }

  /** Selection is deterministic whenever a default exists: it is the unique default. */
  lemma ActiveIsTheDefault(t: Table, role: Role, id: nat, active: Option<nat>)
    requires Inv(t) && id in t && IsDefault(t[id], role) && MayBeActive(t, role, active)
    ensures active == Some(id)
  {
    assert IsActiveDefault(t, id, role);
  }

  ghost predicate HasDefault(t: Table, role: Role) {
    exists id :: id in t && IsDefault(t[id], role)
  }

  ghost predicate Served(t: Table, role: Role) {
    exists id :: Serves(t, id, role)
  }

  /** A deletion never leaves a role without a provider that had one. */
  lemma DeleteKeepsServing(t: Table, op: Op, role: Role)
    requires op.Delete? && Possible(t, op) && Served(t, role)
    ensures Served(Apply(t, 0, op), role)
  {
    var active := if role.Vision? then op.activeVision else op.activeQa;
    assert active.Some? && Serves(t, active.value, role);
    assert Serves(Apply(t, 0, op), active.value, role);
  }

  predicate Drops(p: Provider, d: Dump, role: Role) {
    if role.Vision? then !Or(d.vision, p.vision) || !Or(d.defaultVision, p.defaultVision)
    else !Or(d.qa, p.qa) || !Or(d.defaultQa, p.defaultQa)
  }

  /** The only way to lose the default of a role is an accepted update of the default itself
      that drops the flag or the capability. */
  lemma DefaultLostIff(t: Table, newId: nat, op: Op, role: Role)
    requires Inv(t) && HasDefault(t, role) && (op.Create? ==> newId !in t)
    ensures !HasDefault(Apply(t, newId, op), role) <==>
      && op.Update? && op.id in t && IsDefault(t[op.id], role)
      && Refusal(t, op).None? && Drops(t[op.id], op.dump, role)
  {
    var holder :| holder in t && IsDefault(t[holder], role);
    var t' := Apply(t, newId, op);
    if Refusal(t, op).None? {
      match op {
        case Create(dump) => StoredDefaults(t, newId, FromDump(dump), role, holder);
        case Update(id, dump) =>
          if id in t {
            StoredDefaults(t, id, Merged(t[id], dump), role, holder);
          }
        case SetDefault(id, r) =>
          if id in t {
            assert IsDefault(t'[if r == role then id else holder], role);
          }
        case _ => assert holder in t' && IsDefault(t'[holder], role);
      }
    }
  }

  lemma StoredDefaults(t: Table, id: nat, p: Provider, role: Role, holder: nat)
    requires Inv(t) && holder in t && IsDefault(t[holder], role) && ProviderOk(p)
    ensures HasDefault(Store(t, id, p), role) <==> IsDefault(p, role) || holder != id
  {
    var t' := Store(t, id, p);
    assert id in t' && t'[id] == p && holder in t';
    if holder != id && !IsDefault(p, role) {
      assert IsDefault(t'[holder], role);
    }
    forall j | j in t' && j != id && IsDefault(t'[j], role)
      ensures j == holder
    {
      assert IsDefault(t[j], role);
    }
  }

  // ---------------------------------------------------------------------------
  // What each use case does to the row it names and to the others
  // ---------------------------------------------------------------------------

  /** `p` is one of the enabled defaults of the role if there are any, or else one of the enabled
      providers with the capability. */
  lemma SelectionDecides(t: Table, role: Role, active: Option<nat>)
    requires MayBeActive(t, role, active)
    ensures active.None? <==> forall id :: id in t && t[id].enabled ==> !(if role.Vision? then t[id].vision else t[id].qa)
    ensures active.Some? ==>
      && active.value in t
      && var p := t[active.value];
      && p.enabled && (if role.Vision? then p.vision else p.qa)
      && ((if role.Vision? then p.defaultVision else p.defaultQa)
          || forall id :: id in t && t[id].enabled && (if role.Vision? then t[id].vision else t[id].qa) ==>
               !(if role.Vision? then t[id].defaultVision else t[id].defaultQa))
  {
    if active.None? {
      assert forall id :: !Serves(t, id, role);
    }
    if id :| id in t && t[id].enabled && (if role.Vision? then t[id].vision else t[id].qa) {
      assert Serves(t, id, role);
    }
    forall id | id in t && t[id].enabled && (if role.Vision? then t[id].vision else t[id].qa)
                && (if role.Vision? then t[id].defaultVision else t[id].defaultQa)
      ensures IsActiveDefault(t, id, role)
    {
    }
  }

  /** The value that a request leaves in a field. */
  predicate Asks(o: Option<bool>, otherwise: bool, value: bool) {
    value == match o case Some(v) => v case None => otherwise
  }

  /** What an update makes of a provider, field by field, from the request over the row. */
  lemma UpdateDecides(
    t: Table, id: nat, d: Dump, enabled: bool, vision: bool, qa: bool, tools: bool, wantsVision: bool, wantsQa: bool)
    requires id in t
    requires Asks(d.enabled, t[id].enabled, enabled) && Asks(d.toolCalling, t[id].toolCalling, tools)
    requires Asks(d.vision, t[id].vision, vision) && Asks(d.qa, t[id].qa, qa)
    requires Asks(d.defaultVision, t[id].defaultVision, wantsVision) && Asks(d.defaultQa, t[id].defaultQa, wantsQa)
    ensures var r := Refusal(t, Update(id, d));
      var canSee, canAnswer := vision || wantsVision, qa || wantsQa;
      && r == (if !canSee && !canAnswer then Some(CapabilityRequired)
               else if canAnswer && !tools then Some(QaRequiresToolCalling) else None)
      && (r.None? ==> Apply(t, 0, Update(id, d))[id] == Provider(
            enabled || wantsVision || wantsQa, canSee, canAnswer, tools,
            vision && wantsVision, qa && wantsQa, if canAnswer then Qa else Vision))
  {
  }

  /** The same for a new provider: question answering and enabled unless the request says otherwise. */
  lemma CreateDecides(t: Table, newId: nat, d: Dump)
    ensures var r := Refusal(t, Create(d));
      var vision, qa := d.vision == Some(true), d.qa != Some(false);
      && (r == Some(CapabilityRequired) <==> !vision && !qa)
      && (r == Some(QaRequiresToolCalling) <==> qa && d.toolCalling != Some(true))
      && (r.None? <==> (vision || qa) && (qa ==> d.toolCalling == Some(true)))
      && (r.None? ==>
            var q := Apply(t, newId, Create(d))[newId];
            && q.vision == vision && q.qa == qa && q.toolCalling == (d.toolCalling == Some(true))
            && (q.defaultVision <==> vision && d.defaultVision == Some(true))
            && (q.defaultQa <==> qa && d.defaultQa == Some(true))
            && (q.enabled <==> q.defaultVision || q.defaultQa || d.enabled != Some(false))
            && q.kind == if qa then Qa else Vision)
  {
  }

  /** What storing a row does to the others: a sibling that can do the role loses its flag exactly
      if the stored row has become the role's default, and nothing else happens to it. */
  lemma OthersDecide(t: Table, newId: nat, op: Op, j: nat)
    requires Refusal(t, op).None? && (op.Create? || op.Update? || op.SetDefault?)
    requires j in t && j != (if op.Create? then newId else op.id)
    ensures var t' := Apply(t, newId, op); var p, q := t[j], t'[j];
      var id := if op.Create? then newId else op.id;
      var tookVision := if op.SetDefault? then op.role.Vision? else t'[id].defaultVision;
      var tookQa := if op.SetDefault? then op.role.Qa? else t'[id].defaultQa;
      && t'.Keys == t.Keys + {id}
      && q.enabled == p.enabled && q.vision == p.vision && q.qa == p.qa && q.toolCalling == p.toolCalling && q.kind == p.kind
      && (q.defaultVision <==> p.defaultVision && !(tookVision && p.vision))
      && (q.defaultQa <==> p.defaultQa && !(tookQa && p.qa))
  {
  }

  /** Setting a default enables the provider, gives it the flag of that role, and leaves the other. */
  lemma SetDefaultDecides(t: Table, id: nat, role: Role)
    ensures var r := Refusal(t, SetDefault(id, role));
      && (r == Some(NotFound) <==> id !in t)
      && (r == Some(NotCapable) <==> id in t && !(if role.Vision? then t[id].vision else t[id].qa))
      && (r == Some(QaRequiresToolCalling) <==> id in t && role.Qa? && t[id].qa && !t[id].toolCalling)
      && (r.None? || r.value in {NotFound, NotCapable, QaRequiresToolCalling})
      && (r.None? ==>
            var p, q := t[id], Apply(t, 0, SetDefault(id, role))[id];
            && q.enabled && q.vision == p.vision && q.qa == p.qa && q.toolCalling == p.toolCalling
            && (q.defaultVision <==> role.Vision? || p.defaultVision) && (q.defaultQa <==> role.Qa? || p.defaultQa)
            && q.kind == if p.qa then Qa else Vision)
  {
  }

  /** A provider goes exactly if it is no default, not selected for a role and not referenced; it is
      disabled exactly if it is no default; enabling is never refused. Nothing else changes. */
  lemma RemovalDecides(t: Table, id: nat, activeVision: Option<nat>, activeQa: Option<nat>, referenced: bool)
    requires id in t
    ensures var op, p := Delete(id, activeVision, activeQa, referenced), t[id];
      var free := !p.defaultVision && !p.defaultQa;
      var used := activeVision == Some(id) || activeQa == Some(id);
      && (Apply(t, 0, op) == (if free && !used && !referenced then t - {id} else t))
      && (Refusal(t, op) == Some(CannotDeleteDefault) <==> !free)
      && (Refusal(t, op) == Some(InUse) <==> free && used)
      && (Refusal(t, op) == Some(HasReferences) <==> free && !used && referenced)
      && Apply(t, 0, Disable(id)) == (if free then t[id := p.(enabled := false)] else t)
      && (Refusal(t, Disable(id)) == Some(CannotDisableDefault) <==> !free)
      && Apply(t, 0, Enable(id)) == t[id := p.(enabled := true)]
  {
  }

  /** Whether a role is served changes as the use case says: enabling makes a capable provider serve,
      disabling keeps it from serving, a new default serves and is the one selected. */
  lemma UseCasesServe(t: Table, newId: nat, op: Op, role: Role)
    requires Inv(t) && Refusal(t, op).None?
    ensures var t' := Apply(t, newId, op);
      && (op.Enable? && op.id in t ==> (Serves(t', op.id, role) <==> Capable(t[op.id], role)))
      && (op.Disable? ==> !Serves(t', op.id, role))
      && (op.Delete? ==> !Serves(t', op.id, role))
      && (op.SetDefault? && op.role == role ==>
            IsActiveDefault(t', op.id, role) && forall active :: MayBeActive(t', role, active) ==> active == Some(op.id))
      && (op.Enable? || op.Disable? || op.Delete? ==>
            forall j :: j in t && j != op.id ==> j in t' && t'[j] == t[j])
  {
    StepKeepsInv(t, newId, op);
    if op.SetDefault? && op.role == role {
      var t' := Apply(t, newId, op);
      assert IsActiveDefault(t', op.id, role);
      forall active | MayBeActive(t', role, active)
        ensures active == Some(op.id)
      {
        ActiveIsTheDefault(t', role, op.id, active);
      }
    }
  }

  // ---------------------------------------------------------------------------
  // The connectivity test
  // ---------------------------------------------------------------------------

  /** The connectivity test writes the two capabilities it has found, and nothing else. */
  function Tested(p: Provider, vision: bool, toolCalling: bool): Provider {
    p.(vision := vision, toolCalling := toolCalling)
  }

  /** It keeps the invariant exactly when it finds what the row already relies on. */
  lemma TestKeepsInvIff(t: Table, id: nat, vision: bool, toolCalling: bool)
    requires Inv(t) && id in t
    ensures Inv(t[id := Tested(t[id], vision, toolCalling)]) <==>
      && (vision || (t[id].qa && !t[id].defaultVision))
      && (toolCalling || !t[id].qa)
  {
    var t' := t[id := Tested(t[id], vision, toolCalling)];
    assert forall j, role :: j in t ==> IsDefault(t'[j], role) == IsDefault(t[j], role);
    assert ProviderOk(t[id]);
    if vision || (t[id].qa && !t[id].defaultVision) {
      assert OneDefault(t');
    }
    assert id in t';
  }
}
