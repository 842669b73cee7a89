/**
 * The portrait presenter: the UI thread stamps each request with a generation,
 * a worker coalesces requests and renders, and results come back later. The
 * two threads interleave at every channel operation.
 */
module Presenters {
  import opened Outcomes

  type Appearance = nat
  type RenderKey = nat

  datatype Size = Size(width: nat, height: nat)

  /** The catalog's render key of an appearance, if its model is available. */
  type Catalog = Appearance -> Option<RenderKey>

  // `serial` and `source` only serve the proof: the unwrapped generation, and
  // the appearance an image was rendered from.
  datatype RenderRequest = RenderRequest(generation: nat, appearance: Appearance, target: Size, serial: nat)
  datatype Portrait = Portrait(key: RenderKey, target: Size, durations: seq<nat>, source: Appearance)
  datatype RenderResult = RenderResult(generation: nat, prepared: Option<Portrait>, serial: nat)

  datatype Presenter = Presenter(
    requested: Option<(RenderKey, Size)>, generation: nat, prepared: Option<Portrait>, failure: bool, serial: nat)

  datatype Worker =
    | Waiting
    | Coalescing(newest: RenderRequest)
    | Rendering(request: RenderRequest)
    | Sending(result: RenderResult)
    | Dead

  /** Both threads, their channels, and the view last shown to the presenter. */
  datatype System = System(
    ui: Presenter, requests: seq<RenderRequest>, worker: Worker, results: seq<RenderResult>,
    view: Option<(Appearance, Size)>)

  datatype Act =
    | Drain                                                     // one `try_recv` of a result
    | Decide(appearance: Option<Appearance>, target: Option<Size>)  // the rest of `sync_view`
    | Work(rendered: Option<seq<nat>>)                          // one step of the worker
    | Die                                                       // the worker panics

  // ------------------------------------------------------------- the steps

  function Bump(generation: nat): nat {
    (generation + 1) % (U64_MAX + 1)
  }

  /** `clear`. */
  function Cleared(p: Presenter): Presenter {
    Presenter(None, Bump(p.generation), None, false, p.serial + 1)
  }

  /** `apply_result`. */
  function Applied(p: Presenter, result: RenderResult): Presenter {
    if result.generation != p.generation then p
    else if result.prepared.Some? then p.(prepared := result.prepared, failure := false)
    else p.(failure := true)
  }

  predicate Drawable(target: Option<Size>) {
    target.Some? && target.value.width > 0 && target.value.height > 0
  }

  /** What `sync_view` does after draining: the new presenter and the request it sends. */
  function Decided(catalog: Catalog, p: Presenter, alive: bool, appearance: Option<Appearance>, target: Option<Size>)
    : (Presenter, Option<RenderRequest>)
  {
    if appearance.None? || !Drawable(target) then (Cleared(p), None)
    else
      var key := catalog(appearance.value);
      if key.None? then (Cleared(p).(failure := true), None)
      else if p.requested == Some((key.value, target.value)) then (p, None)
      else
        var p' := p.(requested := Some((key.value, target.value)), generation := Bump(p.generation), failure := !alive,
          serial := p.serial + 1);
        (p', if alive then Some(RenderRequest(p'.generation, appearance.value, target.value, p'.serial)) else None)
  }

  /** `prepare`: composing needs the key; drawing may fail. */
  function RenderedBy(catalog: Catalog, request: RenderRequest, rendered: Option<seq<nat>>): RenderResult {
    var key := catalog(request.appearance);
    RenderResult(request.generation,
      if key.Some? && rendered.Some? then Some(Portrait(key.value, request.target, rendered.value, request.appearance))
        else None,
      request.serial)
  }

  predicate Enabled(s: System, act: Act) {
    match act
    case Drain => s.results != []
    case Work(_) => !s.worker.Dead? && (s.worker.Waiting? ==> s.requests != [])
    case Decide(_, _) => s.ui.serial < U64_MAX   // fewer than 2^64 generations
    case Die => true
  }

  function Next(catalog: Catalog, s: System, act: Act): System
    requires Enabled(s, act)
  {
    match act
    case Drain => s.(ui := Applied(s.ui, s.results[0]), results := s.results[1..])
    case Decide(appearance, target) =>
      var (ui, request) := Decided(catalog, s.ui, !s.worker.Dead?, appearance, target);
      s.(ui := ui, requests := if request.Some? then s.requests + [request.value] else s.requests,
         view := if appearance.Some? && Drawable(target) then Some((appearance.value, target.value)) else None)
    case Die => s.(worker := Dead)
    case Work(rendered) =>
      match s.worker
      case Waiting => s.(worker := Coalescing(s.requests[0]), requests := s.requests[1..])
      case Coalescing(r) =>
        if s.requests != [] then s.(worker := Coalescing(s.requests[0]), requests := s.requests[1..])
        else s.(worker := Rendering(r))
      case Rendering(r) => s.(worker := Sending(RenderedBy(catalog, r, rendered)))
      case Sending(result) => s.(worker := Waiting, results := s.results + [result])
      case Dead => s
  }

  // ------------------------------------------------------------ invariants

  /** The prepared portrait is for the current request. */
  predicate Matches(p: Presenter) {
    p.prepared.Some? && p.requested == Some((p.prepared.value.key, p.prepared.value.target))
  }

  /** What `protocol` draws from. */
  predicate Shows(p: Presenter) {
    Matches(p) && !p.failure
  }

  /** The current request is neither shown nor failed. */
  predicate Unfinished(p: Presenter) {
    p.requested.Some? && !p.failure && !Matches(p)
  }

  function HeldSerial(w: Worker): Option<nat> {
    match w
    case Coalescing(r) => Some(r.serial)
    case Rendering(r) => Some(r.serial)
    case Sending(result) => Some(result.serial)
    case _ => None
  }

  /** The request for the current generation is somewhere between the threads. */
  ghost predicate CurrentInFlight(s: System) {
    || (s.requests != [] && s.requests[|s.requests| - 1].serial == s.ui.serial)
    || HeldSerial(s.worker) == Some(s.ui.serial)
    || (exists i :: 0 <= i < |s.results| && s.results[i].serial == s.ui.serial)
  }

  /** A request says what the current generation asked for, if it is of that generation. */
  ghost predicate SoundRequest(catalog: Catalog, ui: Presenter, r: RenderRequest) {
    && r.generation == r.serial <= ui.serial
    && (r.serial == ui.serial ==>
      catalog(r.appearance).Some? && ui.requested == Some((catalog(r.appearance).value, r.target)))
  }

  ghost predicate SoundPortrait(catalog: Catalog, portrait: Portrait) {
    catalog(portrait.source) == Some(portrait.key)
  }

  ghost predicate SoundResult(catalog: Catalog, ui: Presenter, r: RenderResult) {
    && r.generation == r.serial <= ui.serial
    && (r.prepared.Some? ==>
          && SoundPortrait(catalog, r.prepared.value)
          && (r.serial == ui.serial ==> ui.requested == Some((r.prepared.value.key, r.prepared.value.target))))
    && (r.serial == ui.serial ==> ui.requested.Some?)
  }

  ghost predicate SoundWorker(catalog: Catalog, ui: Presenter, w: Worker) {
    match w
    case Coalescing(r) => SoundRequest(catalog, ui, r)
    case Rendering(r) => SoundRequest(catalog, ui, r)
    case Sending(result) => SoundResult(catalog, ui, result)
    case _ => true
  }

  /** Requests wait in generation order, each newer than what the worker holds. */
  ghost predicate InOrder(s: System) {
    && (forall i, j :: 0 <= i < j < |s.requests| ==> s.requests[i].serial < s.requests[j].serial)
    && (HeldSerial(s.worker).Some? ==>
      forall i :: 0 <= i < |s.requests| ==> HeldSerial(s.worker).value < s.requests[i].serial)
  }

  ghost predicate SoundUi(catalog: Catalog, s: System) {
    && s.ui.generation == s.ui.serial <= U64_MAX
    && (s.ui.prepared.Some? ==> SoundPortrait(catalog, s.ui.prepared.value))
    && (s.ui.requested.Some? ==>
          s.view.Some? && s.ui.requested.value.1 == s.view.value.1
            && catalog(s.view.value.0) == Some(s.ui.requested.value.0))
  }

  ghost predicate Coherent(catalog: Catalog, s: System) {
    && SoundUi(catalog, s)
    && (forall i :: 0 <= i < |s.requests| ==> SoundRequest(catalog, s.ui, s.requests[i]))
    && (forall i :: 0 <= i < |s.results| ==> SoundResult(catalog, s.ui, s.results[i]))
    && SoundWorker(catalog, s.ui, s.worker)
    && InOrder(s)
    && (Unfinished(s.ui) && !s.worker.Dead? ==> CurrentInFlight(s))
  }

  const FRESH: System := System(Presenter(None, 0, None, false, 0), [], Waiting, [], None)

  lemma FreshIsCoherent(catalog: Catalog)
    ensures Coherent(catalog, FRESH)
  {}

  lemma DrainKeeps(catalog: Catalog, s: System)
    requires Coherent(catalog, s) && s.results != []
    ensures Coherent(catalog, Next(catalog, s, Drain))
  {
    var s' := Next(catalog, s, Drain);
    var first := s.results[0];
    assert SoundResult(catalog, s.ui, first);
    assert s'.ui.requested == s.ui.requested && s'.ui.serial == s.ui.serial;
    forall i | 0 <= i < |s'.results|
      ensures SoundResult(catalog, s'.ui, s'.results[i])
    {
      assert SoundResult(catalog, s.ui, s.results[i + 1]);
    }
    forall i | 0 <= i < |s'.requests|
      ensures SoundRequest(catalog, s'.ui, s'.requests[i])
    {
      assert SoundRequest(catalog, s.ui, s.requests[i]);
    }
    if Unfinished(s'.ui) && !s'.worker.Dead? && first.serial != s.ui.serial {
      assert s'.ui == s.ui;
      if i :| 0 <= i < |s.results| && s.results[i].serial == s.ui.serial {
        assert s'.results[i - 1] == s.results[i];
      }
    }
  }

  /** A message of an earlier generation stays sound when the generation moves on. */
  lemma OlderStaysSound(catalog: Catalog, ui: Presenter, ui': Presenter)
    requires ui'.serial == ui.serial + 1
    ensures forall r: RenderRequest :: SoundRequest(catalog, ui, r) ==>
      SoundRequest(catalog, ui', r) && r.serial < ui'.serial
    ensures forall r: RenderResult :: SoundResult(catalog, ui, r) ==>
      SoundResult(catalog, ui', r) && r.serial < ui'.serial
  {}

  lemma DecideKeepsUi(catalog: Catalog, s: System, appearance: Option<Appearance>, target: Option<Size>)
    requires SoundUi(catalog, s) && s.ui.serial < U64_MAX
    ensures var s' := Next(catalog, s, Decide(appearance, target));
      && SoundUi(catalog, s')
      && (s'.ui == s.ui || s'.ui.serial == s.ui.serial + 1)
      && (s'.ui == s.ui ==> s'.requests == s.requests)
      && (s'.requests == s.requests
          || (s'.requests == s.requests + [s'.requests[|s.requests|]]
            && s'.requests[|s.requests|].serial == s'.ui.serial
              && SoundRequest(catalog, s'.ui, s'.requests[|s.requests|])))
      && (s'.requests == s.requests && s'.ui != s.ui ==> !Unfinished(s'.ui))
      && s'.results == s.results && s'.worker == s.worker
  {}

  /** A newer request joins the queue behind what is in flight. */
  lemma QueueGrows(catalog: Catalog, s: System, s': System)
    requires InOrder(s) && s'.worker == s.worker
    requires HeldSerial(s.worker).Some? ==> HeldSerial(s.worker).value < s'.ui.serial
    requires forall i :: 0 <= i < |s.requests| ==>
      SoundRequest(catalog, s'.ui, s.requests[i]) && s.requests[i].serial < s'.ui.serial
    requires s'.requests == s.requests
      || (|s'.requests| == |s.requests| + 1 && s'.requests[..|s.requests|] == s.requests
        && s'.requests[|s.requests|].serial == s'.ui.serial && SoundRequest(catalog, s'.ui, s'.requests[|s.requests|]))
    ensures InOrder(s') && forall i :: 0 <= i < |s'.requests| ==> SoundRequest(catalog, s'.ui, s'.requests[i])
  {
    hide SoundRequest, HeldSerial;
    assert forall i :: 0 <= i < |s.requests| ==> s'.requests[i] == s.requests[i];
  }

  lemma DecideKeeps(catalog: Catalog, s: System, appearance: Option<Appearance>, target: Option<Size>)
    requires Coherent(catalog, s) && s.ui.serial < U64_MAX
    ensures Coherent(catalog, Next(catalog, s, Decide(appearance, target)))
  {
    var s' := Next(catalog, s, Decide(appearance, target));
    DecideKeepsUi(catalog, s, appearance, target);
    hide SoundUi, Next;
    if s'.ui != s.ui {
      OlderStaysSound(catalog, s.ui, s'.ui);
      hide SoundRequest, SoundResult;
      assert SoundWorker(catalog, s'.ui, s.worker);
      assert HeldSerial(s.worker).Some? ==> HeldSerial(s.worker).value < s'.ui.serial;
      assert forall i :: 0 <= i < |s.results| ==> SoundResult(catalog, s'.ui, s'.results[i]);
      QueueGrows(catalog, s, s');
      hide SoundWorker, HeldSerial, InOrder;
    }
  }

  lemma RenderedIsSound(catalog: Catalog, ui: Presenter, r: RenderRequest, rendered: Option<seq<nat>>)
    requires SoundRequest(catalog, ui, r)
    ensures SoundResult(catalog, ui, RenderedBy(catalog, r, rendered))
      && RenderedBy(catalog, r, rendered).serial == r.serial
  {}

  /** A held request of the current generation has nothing newer waiting behind it. */
  lemma NothingNewer(catalog: Catalog, s: System)
    requires Coherent(catalog, s) && s.requests != []
    ensures HeldSerial(s.worker) != Some(s.ui.serial)
    ensures s.requests[0].serial == s.ui.serial ==> |s.requests| == 1
  {
    assert SoundRequest(catalog, s.ui, s.requests[0]);
    assert SoundRequest(catalog, s.ui, s.requests[|s.requests| - 1]);
  }

  /** The worker never loses the current request, although it skips older ones. */
  lemma WorkKeepsInFlight(catalog: Catalog, s: System, rendered: Option<seq<nat>>)
    requires Coherent(catalog, s) && Enabled(s, Work(rendered))
    ensures CurrentInFlight(s) ==> CurrentInFlight(Next(catalog, s, Work(rendered)))
  {
    var s' := Next(catalog, s, Work(rendered));
    if s.requests != [] {
      NothingNewer(catalog, s);
    }
    hide Coherent;
    if s.worker.Rendering? {
      assert HeldSerial(s'.worker) == HeldSerial(s.worker);
    }
    if i :| 0 <= i < |s.results| && s.results[i].serial == s.ui.serial {
      assert s'.results[i] == s.results[i];
    }
    if s.worker.Sending? {
      assert s'.results[|s.results|] == s.worker.result;
    }
  }

  lemma WorkKeeps(catalog: Catalog, s: System, rendered: Option<seq<nat>>)
    requires Coherent(catalog, s) && Enabled(s, Work(rendered))
    ensures Coherent(catalog, Next(catalog, s, Work(rendered)))
  {
    hide SoundRequest, SoundResult, SoundPortrait, RenderedBy, CurrentInFlight;
    var s' := Next(catalog, s, Work(rendered));
    WorkKeepsInFlight(catalog, s, rendered);
    if s.worker.Rendering? {
      RenderedIsSound(catalog, s.ui, s.worker.request, rendered);
    }
    forall i | 0 <= i < |s'.requests|
      ensures SoundRequest(catalog, s'.ui, s'.requests[i])
    {
      assert s'.requests[i] in s.requests;
    }
  }

  /** Every step of either thread keeps the system coherent. */
  lemma StepKeepsCoherent(catalog: Catalog, s: System, act: Act)
    requires Coherent(catalog, s) && Enabled(s, act)
    ensures Coherent(catalog, Next(catalog, s, act))
  {
    match act
    case Drain => DrainKeeps(catalog, s);
    case Decide(appearance, target) => DecideKeeps(catalog, s, appearance, target);
    case Work(rendered) => WorkKeeps(catalog, s, rendered);
    case Die =>
  }

  // -------------------------------------------------------------- theorems

  ghost predicate Possible(catalog: Catalog, s: System, run: seq<Act>)
    decreases |run|
  {
    run != [] ==> Enabled(s, run[0]) && Possible(catalog, Next(catalog, s, run[0]), run[1..])
  }

  ghost function After(catalog: Catalog, s: System, run: seq<Act>): System
    requires Possible(catalog, s, run)
    decreases |run|
  {
    if run == [] then s else After(catalog, Next(catalog, s, run[0]), run[1..])
  }

  lemma {:induction false} RunKeepsCoherent(catalog: Catalog, s: System, run: seq<Act>)
    requires Coherent(catalog, s) && Possible(catalog, s, run)
    ensures Coherent(catalog, After(catalog, s, run))
    decreases |run|
  {
    if run != [] {
      StepKeepsCoherent(catalog, s, run[0]);
      RunKeepsCoherent(catalog, Next(catalog, s, run[0]), run[1..]);
    }
  }

  /**
   * In every interleaving a shown portrait was rendered from an appearance
   * with the render key of the view on screen, at that view's size, and an
   * unfinished request has its generation in flight while the worker lives.
   */
  lemma RightPortraitOrInFlight(catalog: Catalog, run: seq<Act>)
    requires Possible(catalog, FRESH, run)
    ensures var s := After(catalog, FRESH, run);
      && (Shows(s.ui) ==>
            && s.view.Some?
            && catalog(s.ui.prepared.value.source) == catalog(s.view.value.0) == Some(s.ui.prepared.value.key)
            && s.ui.prepared.value.target == s.view.value.1)
      && (Unfinished(s.ui) && !s.worker.Dead? ==> CurrentInFlight(s))
  {
    FreshIsCoherent(catalog);
    RunKeepsCoherent(catalog, FRESH, run);
  }

  /** A result for any other generation changes nothing. */
  lemma StaleResultIgnored(catalog: Catalog, s: System, i: nat)
    requires Coherent(catalog, s) && i < |s.results| && s.results[i].serial != s.ui.serial
    ensures Applied(s.ui, s.results[i]) == s.ui
  {}

  /** A result's effect when it is taken for the current one. */
  function TakenAsCurrent(p: Presenter, r: RenderResult): Presenter {
    if r.prepared.Some? then p.(prepared := r.prepared, failure := false) else p.(failure := true)
  }

  /**
   * Without the bound on generations, the stamp comparison takes a result for
   * the current one exactly if its generation is a multiple of 2^64 older.
   */
  lemma StampsWrap(p: Presenter, r: RenderResult)
    requires p.generation == p.serial % (U64_MAX + 1) && r.generation == r.serial % (U64_MAX + 1)
    requires r.serial <= p.serial
    ensures Applied(p, r) == if (p.serial - r.serial) % (U64_MAX + 1) == 0 then TakenAsCurrent(p, r) else p
  {
    SameRemainder(p.serial, r.serial, U64_MAX + 1);
  }

  lemma SameRemainder(a: nat, b: nat, m: nat)
    requires b <= a && m > 0
    ensures a % m == b % m <==> (a - b) % m == 0
  {
    var qa, qb, q := a / m, b / m, (a - b) / m;
    assert a == qa * m + a % m && b == qb * m + b % m && a - b == q * m + (a - b) % m;
    if a % m == b % m {
      assert a - b == (qa - qb) * m;
      MultipleHasNoRemainder(a - b, qa - qb, m);
    }
    if (a - b) % m == 0 {
      assert a == (qb + q) * m + b % m;
      RemainderUnique(a, qb + q, b % m, m);
    }
  }

  lemma MultipleHasNoRemainder(x: nat, q: int, m: nat)
    requires m > 0 && x == q * m
    ensures x % m == 0
  {
    RemainderUnique(x, q, 0, m);
  }

  lemma RemainderUnique(x: nat, q: int, r: nat, m: nat)
    requires m > 0 && r < m && x == q * m + r
    ensures x % m == r
  {
    MultiplyKeepsOrder(q + 1, x / m, m);
    MultiplyKeepsOrder(x / m + 1, q, m);
    assert x / m * m <= x < x / m * m + m;
  }

  lemma MultiplyKeepsOrder(a: int, b: int, m: nat)
    ensures a <= b ==> a * m <= b * m
  {}

  /** What the worker and the drain still have to do if the view stays as it is. */
  function WorkLeft(s: System): nat {
    5 * |s.requests| + |s.results|
    + match s.worker
      case Coalescing(_) => 4
      case Rendering(_) => 3
      case Sending(_) => 2
      case _ => 0
  }

  lemma WorkUsesUp(catalog: Catalog, s: System, act: Act)
    requires Enabled(s, act) && (act.Work? || act.Drain?)
    ensures WorkLeft(Next(catalog, s, act)) < WorkLeft(s)
    ensures Next(catalog, s, act).worker.Dead? <==> s.worker.Dead?
  {}

  ghost predicate OnlyWorks(run: seq<Act>) {
    forall i :: 0 <= i < |run| ==> run[i].Work? || run[i].Drain?
  }

  lemma {:induction false} WorkingUsesUp(catalog: Catalog, s: System, run: seq<Act>)
    requires Coherent(catalog, s) && !s.worker.Dead? && Possible(catalog, s, run) && OnlyWorks(run)
    ensures var end := After(catalog, s, run);
      && |run| + WorkLeft(end) <= WorkLeft(s) && Coherent(catalog, end) && !end.worker.Dead?
      && end.ui.requested == s.ui.requested && end.view == s.view
    decreases |run|
  {
    if run != [] {
      WorkUsesUp(catalog, s, run[0]);
      StepKeepsCoherent(catalog, s, run[0]);
      hide Coherent;
      assert run[0].Work? || run[0].Drain?;
      WorkingUsesUp(catalog, Next(catalog, s, run[0]), run[1..]);
    }
  }

  /**
   * If the view stays as it is and the worker lives, then in every order of
   * working and draining, and whatever the renders give, both end within the
   * work left; they are stuck only when nothing is in flight, and then the
   * request is shown or reported failed.
   */
  lemma RequestSettles(catalog: Catalog, s: System, run: seq<Act>)
    requires Coherent(catalog, s) && !s.worker.Dead? && Possible(catalog, s, run) && OnlyWorks(run)
    ensures |run| <= WorkLeft(s)
    ensures var end := After(catalog, s, run);
      && end.ui.requested == s.ui.requested && end.view == s.view
      && ((!Enabled(end, Drain) && forall rendered :: !Enabled(end, Work(rendered))) <==> WorkLeft(end) == 0)
      && (WorkLeft(end) == 0 && end.ui.requested.Some? ==> Shows(end.ui) || end.ui.failure)
  {
    WorkingUsesUp(catalog, s, run);
    var end := After(catalog, s, run);
    assert Enabled(end, Work(None)) <==> end.worker != Waiting || end.requests != [];
  }

  /** The current generation has not failed, and no result on its way says it did. */
  ghost predicate Unfailed(s: System) {
    && !s.ui.failure
    && (forall i :: 0 <= i < |s.results| && s.results[i].serial == s.ui.serial ==> s.results[i].prepared.Some?)
    && (s.worker.Sending? && s.worker.result.serial == s.ui.serial ==> s.worker.result.prepared.Some?)
  }

  /** A view that is new, drawable and available is requested and waits unfailed behind all other requests. */
  lemma NewViewIsRequested(catalog: Catalog, s: System, appearance: Appearance, size: Size)
    requires Coherent(catalog, s) && s.ui.serial < U64_MAX && !s.worker.Dead?
    requires size.width > 0 && size.height > 0 && catalog(appearance).Some?
    requires s.ui.requested != Some((catalog(appearance).value, size))
    ensures var s' := Next(catalog, s, Decide(Some(appearance), Some(size)));
      && Coherent(catalog, s') && Unfailed(s') && !s'.worker.Dead?
      && s'.ui.requested == Some((catalog(appearance).value, size)) && s'.view == Some((appearance, size))
      && |s'.requests| == |s.requests| + 1
      && var newest := s'.requests[|s.requests|];
         newest.generation == s'.ui.generation && newest.appearance == appearance && newest.target == size
  {
    DecideKeeps(catalog, s, Some(appearance), Some(size));
    hide InOrder, CurrentInFlight;
    forall i | 0 <= i < |s.results|
      ensures s.results[i].serial <= s.ui.serial
    {
      assert SoundResult(catalog, s.ui, s.results[i]);
    }
  }

  ghost predicate AllRender(run: seq<Act>) {
    forall i :: 0 <= i < |run| && run[i].Work? ==> run[i].rendered.Some?
  }

  lemma RenderingStaysUnfailed(catalog: Catalog, s: System, act: Act)
    requires Coherent(catalog, s) && Enabled(s, act) && Unfailed(s)
    requires act.Drain? || (act.Work? && act.rendered.Some?)
    ensures Unfailed(Next(catalog, s, act))
  {
    var s' := Next(catalog, s, act);
    hide InOrder, CurrentInFlight;
    if act.Drain? {
      assert SoundResult(catalog, s.ui, s.results[0]);
      assert forall i :: 0 <= i < |s'.results| ==> s'.results[i] == s.results[i + 1];
    } else {
      assert forall i :: 0 <= i < |s.results| ==> s'.results[i] == s.results[i];
    }
  }

  lemma {:induction false} RunStaysUnfailed(catalog: Catalog, s: System, run: seq<Act>)
    requires Coherent(catalog, s) && Possible(catalog, s, run) && Unfailed(s)
    requires OnlyWorks(run) && AllRender(run)
    ensures Unfailed(After(catalog, s, run))
    decreases |run|
  {
    if run != [] {
      assert run[0].Work? || run[0].Drain?;
      RenderingStaysUnfailed(catalog, s, run[0]);
      StepKeepsCoherent(catalog, s, run[0]);
      hide Coherent, Unfailed;
      RunStaysUnfailed(catalog, Next(catalog, s, run[0]), run[1..]);
    }
  }

  /**
   * A view that is new, drawable and available is shown at last: from any
   * coherent state, in every order of working and draining to the end in which
   * every render succeeds, with its key and at its size.
   */
  lemma NewViewIsShown(catalog: Catalog, s: System, appearance: Appearance, size: Size, run: seq<Act>)
    requires Coherent(catalog, s) && s.ui.serial < U64_MAX && !s.worker.Dead?
    requires size.width > 0 && size.height > 0 && catalog(appearance).Some?
    requires s.ui.requested != Some((catalog(appearance).value, size))
    requires Possible(catalog, Next(catalog, s, Decide(Some(appearance), Some(size))), run)
    requires OnlyWorks(run) && AllRender(run)
    ensures var end := After(catalog, Next(catalog, s, Decide(Some(appearance), Some(size))), run);
      && !end.ui.failure
      && (!Enabled(end, Drain) && !Enabled(end, Work(None)) ==>
            && Shows(end.ui)
            && Some(end.ui.prepared.value.key) == catalog(appearance) && end.ui.prepared.value.target == size)
  {
    var s' := Next(catalog, s, Decide(Some(appearance), Some(size)));
    NewViewIsRequested(catalog, s, appearance, size);
    hide Coherent, Next;
    RequestSettles(catalog, s', run);
    RunStaysUnfailed(catalog, s', run);
    var end := After(catalog, s', run);
    if !Enabled(end, Drain) && !Enabled(end, Work(None)) {
      forall rendered
        ensures !Enabled(end, Work(rendered))
      {}
    }
  }

  // ------------------------------------------------------------ the objects

  /** The two channels, and whether the worker still receives. */
  class Channels {
    var requests: seq<RenderRequest>
    var results: seq<RenderResult>
    var alive: bool

    constructor ()
      ensures requests == [] && results == [] && alive
    {
      requests, results, alive := [], [], true;
    }

    /** One turn of `worker_loop`: receive, keep only the newest request, render, send. */
    method RenderNext(catalog: Catalog, rendered: Option<seq<nat>>)
      requires requests != []
      modifies this`requests, this`results
      ensures requests == []
      ensures results == old(results) + [RenderedBy(catalog, old(requests)[|old(requests)| - 1], rendered)]
      // The result is of that request's generation: a portrait at its size exactly if it has a key and renders.
      ensures |results| == |old(results)| + 1
      ensures var newest, result := old(requests)[|old(requests)| - 1], results[|old(results)|];
        && result.generation == newest.generation
        && (result.prepared.Some? <==> catalog(newest.appearance).Some? && rendered.Some?)
        && (result.prepared.Some? ==>
              && Some(result.prepared.value.key) == catalog(newest.appearance)
              && result.prepared.value.target == newest.target && result.prepared.value.durations == rendered.value)
    {
      var request := requests[0];
      requests := requests[1..];
      while requests != []
        invariant requests != [] ==> requests[|requests| - 1] == old(requests)[|old(requests)| - 1]
        invariant results == old(results)
        invariant requests == [] ==> request == old(requests)[|old(requests)| - 1]
        decreases |requests|
      {
        request := requests[0];
        requests := requests[1..];
      }
      results := results + [RenderedBy(catalog, request, rendered)];
    }
  }

  /** Applying every waiting result in turn. */
  function AllApplied(p: Presenter, results: seq<RenderResult>): Presenter
    decreases |results|
  {
    if results == [] then p else AllApplied(Applied(p, results[0]), results[1..])
  }

  /** The last of the results that carries this generation. */
  ghost predicate LastOf(results: seq<RenderResult>, generation: nat, i: nat) {
    && i < |results| && results[i].generation == generation
    && (forall j :: i < j < |results| ==> results[j].generation != generation)
  }

  /** Draining keeps what is requested, and the newest result of the current generation decides. */
  lemma {:induction false} DrainedView(p: Presenter, results: seq<RenderResult>)
    ensures var q := AllApplied(p, results);
      && q.requested == p.requested && q.generation == p.generation && q.serial == p.serial
      && ((forall i :: 0 <= i < |results| ==> results[i].generation != p.generation) ==> q == p)
      && (forall i: nat :: LastOf(results, p.generation, i) ==>
            && q.failure == results[i].prepared.None?
            && (results[i].prepared.Some? ==> q.prepared == results[i].prepared))
    decreases |results|
  {
    if results != [] {
      var rest := results[1..];
      var p' := Applied(p, results[0]);
      DrainedView(p', rest);
      assert forall i :: 0 <= i < |rest| ==> rest[i] == results[i + 1];
      forall i: nat | LastOf(results, p.generation, i)
        ensures var q := AllApplied(p, results);
          && q.failure == results[i].prepared.None?
          && (results[i].prepared.Some? ==> q.prepared == results[i].prepared)
      {
        if i > 0 {
          assert rest[i - 1] == results[i] && LastOf(rest, p.generation, i - 1);
        } else {
          assert forall j :: 0 <= j < |rest| ==> rest[j].generation != p.generation;
        }
      }
    }
  }

  lemma StepFirst(catalog: Catalog, s: System, act: Act, rest: seq<Act>)
    requires Enabled(s, act) && Possible(catalog, Next(catalog, s, act), rest)
    ensures Possible(catalog, s, [act] + rest)
    ensures After(catalog, s, [act] + rest) == After(catalog, Next(catalog, s, act), rest)
  {
    assert ([act] + rest)[1..] == rest;
  }

  /** `RenderNext` is what the worker's steps do when nothing interleaves. */
  lemma {:induction false} WorkBurst(catalog: Catalog, s: System, rendered: Option<seq<nat>>) returns (run: seq<Act>)
    requires (s.worker.Waiting? && s.requests != []) || s.worker.Coalescing?
    ensures Possible(catalog, s, run)
    ensures var newest := if s.requests != [] then s.requests[|s.requests| - 1] else s.worker.newest;
      After(catalog, s, run) == s.(worker := Waiting, requests := [],
        results := s.results + [RenderedBy(catalog, newest, rendered)])
    decreases |s.requests|
  {
    var act := Work(rendered);
    var s1 := Next(catalog, s, act);
    if s.requests != [] {
      var rest := WorkBurst(catalog, s1, rendered);
      run := [act] + rest;
      assert run[1..] == rest;
    } else {
      var s2 := Next(catalog, s1, act);
      StepFirst(catalog, s2, act, []);
      StepFirst(catalog, s1, act, [act]);
      StepFirst(catalog, s, act, [act] + [act]);
      run := [act] + ([act] + [act]);
    }
  }

  /** `SyncView` is what draining every result and then deciding does when nothing interleaves. */
  lemma {:induction false} SyncBurst(
    catalog: Catalog, s: System, appearance: Option<Appearance>, target: Option<Size>) returns (run: seq<Act>)
    requires s.ui.serial < U64_MAX
    ensures Possible(catalog, s, run)
    ensures var decided := Decided(catalog, AllApplied(s.ui, s.results), !s.worker.Dead?, appearance, target);
      var end := After(catalog, s, run);
      && end.ui == decided.0 && end.results == [] && end.worker == s.worker
      && end.requests == s.requests + (if decided.1.Some? then [decided.1.value] else [])
    decreases |s.results|
  {
    if s.results != [] {
      var rest := SyncBurst(catalog, Next(catalog, s, Drain), appearance, target);
      run := [Drain] + rest;
      assert run[1..] == rest;
    } else {
      run := [Decide(appearance, target)];
      assert run[1..] == [];
    }
  }

  class AppearancePresenter {
    const channels: Channels
    const catalog: Catalog
    var requested: Option<(RenderKey, Size)>
    var generation: nat
    var prepared: Option<Portrait>
    var failure: bool
    var serial: nat  // only the proof needs it

    constructor (catalog: Catalog, channels: Channels)
      ensures this.catalog == catalog && this.channels == channels && State() == FRESH.ui
    {
      this.catalog, this.channels := catalog, channels;
      requested, generation, prepared, failure, serial := None, 0, None, false, 0;
    }

    ghost function State(): Presenter
      reads this
    {
      Presenter(requested, generation, prepared, failure, serial)
    }

    method Clear()
      modifies this
      ensures State() == Cleared(old(State()))
    {
      generation := (generation + 1) % (U64_MAX + 1);
      requested, prepared, failure := None, None, false;
      serial := serial + 1;
    }

    method ApplyResult(result: RenderResult)
      modifies this`prepared, this`failure
      ensures State() == Applied(old(State()), result)
    {
      if result.generation != generation {
        return;
      }
      if result.prepared.Some? {
        prepared, failure := result.prepared, false;
      } else {
        failure := true;
      }
    }

    /** `sync_view`: drain every waiting result, then decide what to request. */
    method SyncView(appearance: Option<Appearance>, target: Option<Size>)
      modifies this, channels
      ensures var decided := Decided(catalog, AllApplied(old(State()), old(channels.results)), old(channels.alive),
        appearance, target);
        && State() == decided.0
        && channels.requests == old(channels.requests) + (if decided.1.Some? then [decided.1.value] else [])
      ensures channels.results == [] && channels.alive == old(channels.alive)
      // Nothing to draw is no failure, a view without a key is one; neither requests anything.
      ensures appearance.None? || target.None? || target.value.width == 0 || target.value.height == 0 ==>
        requested.None? && prepared.None? && !failure && channels.requests == old(channels.requests)
      ensures appearance.Some? && target.Some? && target.value.width > 0 && target.value.height > 0 ==>
        catalog(appearance.value).None? ==>
        requested.None? && prepared.None? && failure && channels.requests == old(channels.requests)
      // Any other view is what is requested now; if it was not, the worker is sent it, or has died.
      ensures appearance.Some? && target.Some? && target.value.width > 0 && target.value.height > 0 ==>
        catalog(appearance.value).Some? ==>
        requested == Some((catalog(appearance.value).value, target.value))
      ensures requested.Some? && requested == old(requested) ==>
        generation == old(generation) && channels.requests == old(channels.requests)
      ensures requested.Some? && requested != old(requested) ==>
        && generation == (old(generation) + 1) % 0x1_0000_0000_0000_0000 && failure == !old(channels.alive)
        && (!old(channels.alive) ==> channels.requests == old(channels.requests))
        && (old(channels.alive) ==>
              && |channels.requests| == old(|channels.requests|) + 1
              && channels.requests[..old(|channels.requests|)] == old(channels.requests)
              && var newest := channels.requests[old(|channels.requests|)];
                 newest.generation == generation && Some(newest.appearance) == appearance
                   && Some(newest.target) == target)
    {
      DrainedView(State(), channels.results);
      while channels.results != []
        invariant AllApplied(State(), channels.results) == AllApplied(old(State()), old(channels.results))
        invariant channels.requests == old(channels.requests) && channels.alive == old(channels.alive)
        decreases |channels.results|
      {
        var result := channels.results[0];
        channels.results := channels.results[1..];
        ApplyResult(result);
      }
      if appearance.None? || !Drawable(target) {
        Clear();
        return;
      }
      var key := catalog(appearance.value);
      if key.None? {
        Clear();
        failure := true;
        return;
      }
      if requested == Some((key.value, target.value)) {
        return;
      }
      generation := (generation + 1) % (U64_MAX + 1);
      requested := Some((key.value, target.value));
      failure := false;
      serial := serial + 1;
      if channels.alive {
        channels.requests := channels.requests + [RenderRequest(generation, appearance.value, target.value, serial)];
      } else {
        failure := true;
      }
    }

    /** `protocol`: the frame to draw `elapsed` milliseconds after preparation. */
    method Protocol(elapsed: nat) returns (frame: Option<nat>)
      ensures frame.Some? <==> Shows(State()) && prepared.value.durations != []
      ensures frame.Some? && Sum(prepared.value.durations) > 0 ==>
        FrameAt(prepared.value.durations, elapsed % Sum(prepared.value.durations), frame.value)
      ensures frame.Some? && Sum(prepared.value.durations) == 0 ==> frame.value == 0
    {
      if prepared.None? || failure || requested != Some((prepared.value.key, prepared.value.target)) {
        return None;
      }
      var durations := prepared.value.durations;
      var total := 0;
      for i := 0 to |durations|
        invariant total == Sum(durations[..i])
      {
        assert durations[..i + 1][..i] == durations[..i];
        total := total + durations[i];
      }
      assert durations[..|durations|] == durations;
      if total == 0 {
        return if durations == [] then None else Some(0);
      }
      var position: nat := elapsed % total;
      for i := 0 to |durations|
        invariant elapsed % total == Sum(durations[..i]) + position
      {
        assert durations[..i + 1][..i] == durations[..i];
        if position < durations[i] {
          return Some(i);
        }
        position := position - durations[i];
      }
      assert false;
    }
  }

  /** The total length of an animation's frames. */
  function Sum(durations: seq<nat>): nat {
    if durations == [] then 0 else Sum(durations[..|durations| - 1]) + durations[|durations| - 1]
  }

  /** The position falls within the frame's own stretch of the animation. */
  ghost predicate FrameAt(durations: seq<nat>, position: nat, frame: nat) {
    frame < |durations| && Sum(durations[..frame]) <= position < Sum(durations[..frame]) + durations[frame]
  }
}
