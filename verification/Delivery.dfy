/**
 The browser demo's delivery world (examples/demo/source_delivery.go): Stages, the operations
 asked of them and the small promoter that runs them. What a plan predicts, what the checks after
 release say and what a Stage remembers besides its pointer come from outside, in `Rules`.
 */
module Delivery {
  import opened Basics
  import opened Versions

  type User = string
  type Team = string
  type Uid = nat

  const MAX_CONCLUDED := 20
  const OBSERVE := "observe"
  const PROMOTER := "promoter"

  datatype Key = Key(ns: string, name: string)
  datatype Kind = Promote | Override | Rollback | Autonomy
  datatype Class = Human | Agent | Controller | BreakGlass
  datatype Outcome = Succeeded | Failed | Rejected
  datatype Verification = Unstated | Verified | Unverified | AcceptedUnknown
  datatype Decision = Approve | AcceptUnknown | Reject
  datatype Prediction = Starts | Rejects | Holds | Waits
  datatype Checked = Pass | Fail | Unknown

  /** `Admitted` is the empty phase of an operation the promoter has not acted on yet. */
  datatype Phase = Admitted | Held | Pending | Running | Verifying | Concluded

  datatype Plan = Plan(predicted: Prediction, owners: seq<Team>, human: bool, ordered: bool, digest: string, rest: int)

  datatype Request = Request(stage: Key, kind: Kind, from: string, to: string, undoes: Uid, digest: string, caused: bool)

  /** What an operation asks for. */
  datatype Spec = Spec(kind: Kind, stage: Key, from: string, to: string, undoes: Uid)

  datatype Answer = Answer(actor: User, groups: seq<string>, decision: Decision)

  /** An operation. `starts`, `ends` and `moves` count how often it started, concluded and moved a pointer. */
  datatype Op = Op(spec: Spec, actor: User, plan: Plan, phase: Phase, applied: bool, before: string, after: string,
                   answers: seq<Answer>, approved: seq<Team>, starts: nat, ends: nat, moves: nat)

  datatype Conclusion = Conclusion(uid: Uid, num: nat, outcome: Outcome, verification: Verification)

  /** What else a Stage remembers. */
  datatype Memory = Memory(frozen: bool, failed: seq<string>, level: string, rest: int)

  /** `observed` is what GitOps applied; `concluded` is the window kept; `ever` is every conclusion there was. */
  datatype Stage = Stage(pointer: string, observed: Option<string>, lastOp: Uid, num: nat, head: string, recordedSeq: nat,
                         concluded: seq<Conclusion>, ever: seq<Conclusion>, memory: Memory)

  /** A record: its place in the chain, the operation it is about (zero for a gap) and the rest of what it says. */
  datatype Statement = Statement(num: nat, parent: string, op: Uid, before: string, after: string, rest: int)

  datatype Stored = Stored(id: string, statement: Statement)

  datatype Stream = Stream(recs: seq<Stored>, unreadable: nat)

  datatype Task = ToApply(uid: Uid) | ToVerify(uid: Uid)

  datatype Views = Views(stages: map<Key, Stage>, ops: seq<Op>)

  /**
   `book` holds every operation ever made, `listed` those still there, in order; `tasks` are the
   promoter's queued steps. While `immediate` a step runs at once instead of being queued.
   */
  datatype World = World(stages: map<Key, Stage>, book: map<Uid, Op>, listed: seq<Uid>, streams: map<Key, Stream>,
                         n: nat, tasks: multiset<Task>, immediate: bool, views: Option<Views>)

  /** Everything the lifecycle asks and does not decide. */
  datatype Rules = Rules(registry: Registry, planFor: (World, Spec, User) -> Option<Plan>,
                         check: (World, Uid) -> Checked, remember: (Memory, Op, Outcome, Verification) -> Memory,
                         holdAfter: (Memory, Op) -> Memory, classOf: User -> Class, prefix: string,
                         below: string -> string, automatic: string -> bool, id: Statement -> string)

  function ClassOf(r: Rules, actor: User): Class {
    if actor == PROMOTER then Controller else r.classOf(actor)
  }

  predicate Has(w: World, u: Uid) {
    u in w.book && w.book[u].spec.stage in w.stages
  }

  /** Every operation is of a Stage there is, and every listed one was made. */
  predicate Sane(w: World) {
    && (forall u | u in w.book :: w.book[u].spec.stage in w.stages && 0 < u <= w.n)
    && (forall i | 0 <= i < |w.listed| :: w.listed[i] in w.book)
  }

  /** Nothing made goes away, what was asked for stays, and while steps run at once none is queued. */
  predicate Grows(w: World, w': World) {
    && w.stages.Keys == w'.stages.Keys && w.immediate == w'.immediate && (w.immediate ==> w'.tasks == w.tasks)
    && forall u | u in w.book :: u in w'.book && w'.book[u].spec == w.book[u].spec
  }

  predicate Find(w: World, ns: string, u: Uid) {
    u in w.listed && u in w.book && w.book[u].spec.stage.ns == ns
  }

  function Or(a: string, b: string): string {
    if a != "" then a else b
  }

  // ---- planning ----------------------------------------------------------------------------------

  function SpecFor(r: Rules, w: World, req: Request): Option<Spec>
    requires req.stage in w.stages
  {
    match req.kind
    case Rollback =>
      if !Find(w, req.stage.ns, req.undoes) then None
      else Some(Spec(Rollback, req.stage, w.book[req.undoes].after, w.book[req.undoes].before, req.undoes))
    case Autonomy => Some(Spec(Autonomy, req.stage, Or(req.from, w.stages[req.stage].memory.level), req.to, 0))
    case _ =>
      if !Known(r.registry, req.stage.name, req.to) then None
      else Some(Spec(req.kind, req.stage, Or(req.from, w.stages[req.stage].pointer), req.to, 0))
  }

  datatype Planned = Planned(plan: Plan, spec: Spec)

  /** A plan needs a version of the Stage's own service to go to, or a level. */
  predicate Plannable(r: Rules, spec: Spec) {
    if spec.kind == Autonomy then spec.to != "" else Known(r.registry, spec.stage.name, spec.to)
  }

  function PlanOf(r: Rules, w: World, req: Request, actor: User): (p: Option<Planned>)
    ensures p.Some? ==> p.value.spec.stage == req.stage && p.value.spec.kind == req.kind && req.stage in w.stages
    ensures p.Some? && req.kind == Rollback ==> Find(w, req.stage.ns, req.undoes)
    ensures p.Some? ==> Plannable(r, p.value.spec)
  {
    if req.stage !in w.stages then None
    else
      match SpecFor(r, w, req)
      case None => None
      case Some(spec) =>
        if !Plannable(r, spec) then None
        else match r.planFor(w, spec, actor)
        case None => None
        case Some(plan) => Some(Planned(plan, spec))
  }

  predicate MayUndo(kind: Kind, who: Class) {
    kind == Promote || who == Human || who == BreakGlass
  }

  /** A rollback is bound to the operation it undoes. */
  predicate AdmitRollback(spec: Spec, st: Stage, cited: Op, who: Class, caused: bool) {
    && cited.applied
    && spec.from == cited.after && spec.from == st.pointer
    && spec.to == cited.before && spec.to != ""
    && MayUndo(cited.spec.kind, who)
    && spec.to !in st.memory.failed
    && !(st.memory.frozen && who == Agent && !caused)
  }

  // ---- records -----------------------------------------------------------------------------------

  function Next(w: World, k: Key): nat
    requires k in w.streams
  {
    |w.streams[k].recs| + 1
  }

  /** A record signed with the tab's own key joins the stream; any other is unreadable and changes nothing else. */
  function Store(r: Rules, w: World, k: Key, st: Statement, own: bool): World
    requires k in w.stages && k in w.streams
  {
    var s := w.streams[k];
    if own then
      w.(streams := w.streams[k := s.(recs := s.recs + [Stored(r.id(st), st)])],
         stages := w.stages[k := w.stages[k].(head := r.id(st), recordedSeq := st.num)])
    else w.(streams := w.streams[k := s.(unreadable := s.unreadable + 1)])
  }

  /** The two deliberate problems of the story: a gap, and a record a stranger signed. */
  function GapAndStranger(r: Rules, w: World, k: Key): World
    requires k in w.stages && k in w.streams
  {
    var gap := Statement(Next(w, k), w.stages[k].head, 0, "", "", w.stages[k].num + 1);
    var w1 := w.(stages := w.stages[k := w.stages[k].(num := w.stages[k].num + 1)]);
    Store(r, Store(r, w1, k, gap, true), k, gap.(num := 99), false)
  }

  // ---- held changes are planned again --------------------------------------------------------------

  predicate Replans(op: Op) {
    op.phase == Held && !op.applied && op.plan.ordered
  }

  function Replanned(r: Rules, w: World, op: Op): (op': Op)
    ensures SameButPlan(op, op')
  {
    if !Replans(op) then op
    else
      match PlanOf(r, w, Request(op.spec.stage, op.spec.kind, op.spec.from, op.spec.to, 0, "", false), op.actor)
      case None => op
      case Some(p) =>
        if p.plan.predicted == Rejects then op
        else if !p.plan.human then op.(plan := op.plan.(ordered := false))
        else op.(plan := p.plan)
  }

  /** Planned again, if at all, and not so as to be rejected. */
  predicate SameButPlan(op: Op, op': Op) {
    op' == op.(plan := op'.plan) && (op'.plan.predicted == Rejects ==> op.plan.predicted == Rejects)
  }

  predicate OnlyPlans(book: map<Uid, Op>, book': map<Uid, Op>) {
    book'.Keys == book.Keys && forall u | u in book :: SameButPlan(book[u], book'[u])
  }

  function Replan(r: Rules, w: World, us: seq<Uid>): (w': World)
    requires forall i | 0 <= i < |us| :: us[i] in w.book
    ensures w' == w.(book := w'.book) && OnlyPlans(w.book, w'.book)
    decreases |us|
  {
    if us == [] then w
    else Replan(r, w.(book := w.book[us[0] := Replanned(r, w, w.book[us[0]])]), us[1..])
  }

  // ---- the promoter ------------------------------------------------------------------------------------

  function Last(cs: seq<Conclusion>): seq<Conclusion> {
    if |cs| > MAX_CONCLUDED then cs[|cs| - MAX_CONCLUDED..] else cs
  }

  /** Leaving observe adopts what runs as the pointer; returning to it clears the pointer. */
  function LevelPointer(st: Stage, spec: Spec): string {
    if spec.to == OBSERVE then ""
    else if spec.from == OBSERVE && st.observed.Some? then st.observed.value
    else st.pointer
  }

  function PointerAfter(st: Stage, op: Op, outcome: Outcome): string {
    if op.spec.kind == Autonomy && outcome == Succeeded then LevelPointer(st, op.spec) else st.pointer
  }

  function ConcludedStage(r: Rules, st: Stage, op: Op, u: Uid, outcome: Outcome, v: Verification): Stage {
    var c := Conclusion(u, st.num + 1, outcome, v);
    st.(num := st.num + 1, concluded := Last(st.concluded + [c]), ever := st.ever + [c],
        pointer := PointerAfter(st, op, outcome), memory := r.remember(st.memory, op, outcome, v))
  }

  function ConcludedOp(st: Stage, op: Op, outcome: Outcome): Op {
    var done := op.(phase := Concluded, ends := op.ends + 1);
    if op.spec.kind != Autonomy then done
    else if PointerAfter(st, op, outcome) == st.pointer then done.(before := "", after := "")
    else done.(before := st.pointer, after := PointerAfter(st, op, outcome), moves := op.moves + 1)
  }

  function Recorded(r: Rules, w: World, u: Uid): (w': World)
    requires Has(w, u)
    ensures w' == w.(stages := w'.stages, streams := w'.streams) && w'.stages.Keys == w.stages.Keys
  {
    var op := w.book[u];
    var k := op.spec.stage;
    if k !in w.streams then w
    else Store(r, w, k, Statement(Next(w, k), w.stages[k].head, u, op.before, op.after, 0), true)
  }

  function Ended(r: Rules, w: World, u: Uid, outcome: Outcome, v: Verification): (w': World)
    requires Has(w, u)
    ensures w' == w.(stages := w'.stages, book := w'.book) && w'.stages.Keys == w.stages.Keys && w'.book.Keys == w.book.Keys
    ensures forall x | x in w.book :: w'.book[x].spec == w.book[x].spec
    ensures w'.book[u].phase == Concluded
  {
    var op := w.book[u];
    var k := op.spec.stage;
    w.(stages := w.stages[k := ConcludedStage(r, w.stages[k], op, u, outcome, v)],
       book := w.book[u := ConcludedOp(w.stages[k], op, outcome)])
  }

  /** Ends an operation: the Stage's next number, its memory, its record, then every held change planned again. */
  function Conclude(r: Rules, w: World, u: Uid, outcome: Outcome, v: Verification): (w': World)
    requires Sane(w) && u in w.book
    ensures Sane(w') && Grows(w, w') && w'.listed == w.listed && w'.n == w.n
    ensures w'.book.Keys == w.book.Keys && w'.book[u].phase == Concluded
  {
    var w1 := Recorded(r, Ended(r, w, u, outcome, v), u);
    Replan(r, w1, w1.listed)
  }

  function AppliedOp(st: Stage, op: Op): Op {
    op.(before := st.pointer, after := op.spec.to, applied := true, phase := Verifying, moves := op.moves + 1)
  }

  function AppliedStage(r: Rules, st: Stage, op: Op, u: Uid): Stage {
    st.(pointer := op.spec.to, lastOp := u, memory := r.holdAfter(st.memory, op))
  }

  function Apply(r: Rules, w: World, u: Uid): (w': World)
    requires Sane(w) && u in w.book
    ensures Sane(w') && Grows(w, w')
  {
    var op := w.book[u];
    var k := op.spec.stage;
    w.(book := w.book[u := AppliedOp(w.stages[k], op)], stages := w.stages[k := AppliedStage(r, w.stages[k], op, u)])
  }

  /** Plans the request and, if it stands, makes its operation. */
  function Admit(r: Rules, w: World, req: Request, actor: User): (w': Option<World>)
    requires Sane(w)
    ensures w'.Some? ==> && Sane(w'.value) && Grows(w, w'.value) && w'.value.n == w.n + 1 && w'.value.n in w'.value.book
                         && w'.value.book[w'.value.n].spec.kind == req.kind
    ensures w'.Some? ==> Plannable(r, w'.value.book[w'.value.n].spec)
    ensures w'.Some? && req.kind == Rollback ==>
              req.undoes in w.book && w.book[req.undoes].applied && MayUndo(w.book[req.undoes].spec.kind, ClassOf(r, actor))
  {
    match PlanOf(r, w, req, actor)
    case None => None
    case Some(p) =>
      if req.digest != "" && req.digest != p.plan.digest then None
      else if req.kind == Rollback &&
              !AdmitRollback(p.spec, w.stages[req.stage], w.book[req.undoes], ClassOf(r, actor), req.caused) then None
      else
        var op := Op(p.spec, actor, p.plan, Admitted, false, "", "", [], [], 0, 0, 0);
        Some(w.(n := w.n + 1, book := w.book[w.n + 1 := op], listed := w.listed + [w.n + 1]))
  }

  /** A failed promote is rolled back, and nothing else the promoter does is undone by it, so its steps end. */
  function Rank(w: World, u: Uid): nat
    requires u in w.book
  {
    if w.book[u].spec.kind == Promote then 2 else 1
  }

  function Depth(r: Rules, w: World, req: Request, actor: User): nat
    requires Sane(w)
  {
    match Admit(r, w, req, actor)
    case None => 0
    case Some(a) => Rank(a, a.n)
  }

  function Rests(w: World, u: Uid, phase: Phase): (w': World)
    requires Sane(w) && u in w.book
    ensures Sane(w') && Grows(w, w')
  {
    w.(book := w.book[u := w.book[u].(phase := phase)])
  }

  function Propose(r: Rules, w: World, req: Request, actor: User): (w': World)
    requires Sane(w)
    ensures Sane(w') && Grows(w, w')
    decreases Depth(r, w, req, actor), 6
  {
    match Admit(r, w, req, actor)
    case None => w
    case Some(a) => Enact(r, a, a.n)
  }

  /** Acts on what the plan of a new operation predicts. */
  function Enact(r: Rules, w: World, u: Uid): (w': World)
    requires Sane(w) && u in w.book
    ensures Sane(w') && Grows(w, w')
    decreases Rank(w, u), 5
  {
    match w.book[u].plan.predicted
    case Rejects => Conclude(r, w, u, Rejected, Unstated)
    case Holds => Rests(w, u, Held)
    case Waits => Rests(w, u, Pending)
    case Starts => Start(r, w, u)
  }

  /** Started; a level change is applied at once. */
  function Started(w: World, u: Uid): (w': World)
    requires Sane(w) && u in w.book
    ensures Sane(w') && Grows(w, w')
  {
    var op := w.book[u];
    w.(book := w.book[u := op.(phase := Running, starts := op.starts + 1, applied := op.applied || op.spec.kind == Autonomy)])
  }

  /** A level change is the swap itself; anything else moves the pointer as the next step. */
  function Start(r: Rules, w: World, u: Uid): (w': World)
    requires Sane(w) && u in w.book
    ensures Sane(w') && Grows(w, w')
    decreases Rank(w, u), 4
  {
    var w1 := Started(w, u);
    if w.book[u].spec.kind == Autonomy
    then Conclude(r, w1, u, Succeeded, Unstated)
    else if w.immediate then FireApply(r, w1, u)
    else w1.(tasks := w.tasks + multiset{ToApply(u)})
  }

  /** The step that moves the pointer. */
  function FireApply(r: Rules, w: World, u: Uid): (w': World)
    requires Sane(w) && u in w.book
    ensures Sane(w') && Grows(w, w')
    decreases Rank(w, u), 3
  {
    var w1 := Apply(r, w, u);
    if w.immediate then FireVerify(r, w1, u) else w1.(tasks := w.tasks + multiset{ToVerify(u)})
  }

  /** The step that checks what was released, then concludes, rolls back or asks. */
  function FireVerify(r: Rules, w: World, u: Uid): (w': World)
    requires Sane(w) && u in w.book
    ensures Sane(w') && Grows(w, w')
    decreases Rank(w, u), 2
  {
    match r.check(w, u)
    case Fail => RollBack(r, Conclude(r, w, u, Failed, Unverified), u, true)
    case Unknown => Rests(w, u, Held)
    case Pass => Conclude(r, w, u, Succeeded, Verified)
  }

  function Undo(w: World, u: Uid, caused: bool): Request
    requires u in w.book
  {
    Request(w.book[u].spec.stage, Rollback, "", "", u, "", caused)
  }

  function StepDownOf(r: Rules, w: World, u: Uid): Request
    requires Has(w, u)
  {
    var level := w.stages[w.book[u].spec.stage].memory.level;
    Request(w.book[u].spec.stage, Autonomy, level, r.below(level), 0, "", true)
  }

  /** Nobody stood behind this promote: an agent asked for it, no answer was given, and its level needs none. */
  predicate StepsDown(r: Rules, w: World, u: Uid, caused: bool)
    requires Has(w, u)
  {
    var op := w.book[u];
    && op.spec.kind == Promote && ClassOf(r, op.actor) != Human && op.answers == [] && caused
    && r.automatic(w.stages[op.spec.stage].memory.level)
  }

  /** The promoter lowers the Stage one level. */
  function StepDown(r: Rules, w: World, u: Uid, caused: bool): (w': World)
    requires Sane(w) && u in w.book
    ensures Sane(w') && Grows(w, w')
    decreases Rank(w, u), 0
  {
    if StepsDown(r, w, u, caused) then Propose(r, w, StepDownOf(r, w, u), PROMOTER) else w
  }

  /** The promoter undoes a failed version, once. */
  function RollBack(r: Rules, w: World, u: Uid, caused: bool): (w': World)
    requires Sane(w) && u in w.book
    ensures Sane(w') && Grows(w, w')
    decreases Rank(w, u), 1
  {
    var w1 := if w.book[u].before == "" then w else Propose(r, w, Undo(w, u, caused), PROMOTER);
    StepDown(r, w1, u, caused)
  }

  // ---- what people do ---------------------------------------------------------------------------------------

  predicate InTeam(prefix: string, groups: seq<string>, team: Team) {
    !("system:" <= prefix + team) && prefix + team in groups
  }

  /** The teams answered so far, with those of `owners` this approver speaks for. */
  function AnsweredTeams(prefix: string, owners: seq<Team>, groups: seq<string>, approved: seq<Team>): (r: seq<Team>)
    ensures forall t :: t in r <==> t in approved || (t in owners && prefix + t in groups && !("system:" <= prefix + t))
    decreases |owners|
  {
    if owners == [] then approved
    else
      var rest := if InTeam(prefix, groups, owners[0]) && owners[0] !in approved then approved + [owners[0]] else approved;
      AnsweredTeams(prefix, owners[1..], groups, rest)
  }

  function TeamsWaiting(owners: seq<Team>, approved: seq<Team>): (r: seq<Team>)
    ensures forall t :: t in r <==> t in owners && t !in approved
    ensures r == [] <==> forall t | t in owners :: t in approved
    decreases |owners|
  {
    if owners == [] then []
    else (if owners[0] in approved then [] else [owners[0]]) + TeamsWaiting(owners[1..], approved)
  }

  function Answered(r: Rules, op: Op, a: Answer): Op {
    op.(answers := op.answers + [a], approved := AnsweredTeams(r.prefix, op.plan.owners, a.groups, op.approved))
  }

  function Recount(r: Rules, w: World, u: Uid, a: Answer): (w': World)
    requires Sane(w) && u in w.book
    ensures Sane(w') && Grows(w, w')
  {
    w.(n := w.n + 1, book := w.book[u := Answered(r, w.book[u], a)])
  }

  /** A decision on a held operation: every team asked answers before it starts. */
  function Decide(r: Rules, w: World, u: Uid, a: Answer): (w': World)
    requires Sane(w) && u in w.book
    ensures Sane(w') && Grows(w, w')
  {
    var w1 := Recount(r, w, u, a);
    var op := w1.book[u];
    if a.decision != Reject && TeamsWaiting(op.plan.owners, op.approved) != [] then w1
    else if a.decision == Reject && op.applied then RollBack(r, Conclude(r, w1, u, Failed, Unstated), u, false)
    else if a.decision == Reject then Conclude(r, w1, u, Rejected, Unstated)
    else if op.applied then Conclude(r, w1, u, Succeeded, AcceptedUnknown)
    else Start(r, w1, u)
  }

  predicate Decidable(w: World, ns: string, u: Uid) {
    Find(w, ns, u) && w.book[u].phase == Held
  }

  predicate Cancellable(w: World, ns: string, u: Uid) {
    Find(w, ns, u) && !w.book[u].applied && w.book[u].phase != Concluded
  }

  function Without(us: seq<Uid>, u: Uid): (r: seq<Uid>)
    ensures forall x :: x in r ==> x in us
    decreases |us|
  {
    if us == [] then [] else if us[0] == u then us[1..] else [us[0]] + Without(us[1..], u)
  }

  function Cancel(w: World, u: Uid): World {
    w.(listed := Without(w.listed, u))
  }
}
