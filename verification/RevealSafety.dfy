/** The main loop's navigation, snapshot adoption and page rendering, while commits may land between any two of its steps. */
module RevealSafety {
  import opened Bytes

  const KIND_COUNT := 5

  datatype Screen = Home | CardMenu | PageView | ImageView
  datatype Key = Up | Down | Ok | Back

  // ----- navigation

  datatype NavState = NavState(screen: Screen, homeSelection: nat, category: nat, page: nat, revealed: bool)

  predicate NavOk(v: NavState) { v.homeSelection < 2 && v.category < KIND_COUNT && (v.revealed ==> v.screen == PageView) }

  function KeyStep(v: NavState, key: Key, counts: seq<nat>): (w: NavState)
    requires NavOk(v) && |counts| == KIND_COUNT
    ensures NavOk(w)
    ensures w.revealed && !v.revealed ==> v.screen == PageView && key == Ok && w == v.(revealed := true)
    ensures counts[v.category] > 0 && v.page < counts[v.category] && w.category == v.category ==> w.page < counts[v.category]
  {
    if key == Back then NavState(if v.screen == PageView then CardMenu else Home, v.homeSelection, v.category, 0, false)
    else
      match v.screen
      case Home =>
        if key == Up || key == Down then v.(homeSelection := 1 - v.homeSelection)
        else v.(screen := if v.homeSelection == 1 then ImageView else CardMenu, category := 0)
      case CardMenu =>
        if key == Up then v.(category := (v.category + 4) % KIND_COUNT)
        else if key == Down then v.(category := (v.category + 1) % KIND_COUNT)
        else v.(screen := PageView, page := 0, revealed := false)
      case PageView =>
        var count := counts[v.category];
        if key == Up then v.(page := if count > 0 then (v.page + count - 1) % count else v.page)
        else if key == Down then v.(page := if count > 0 then (v.page + 1) % count else v.page)
        else assert key.Ok?; v.(revealed := !v.revealed)
      case ImageView => v
  }

  class Nav {
    var screen: Screen
    var homeSelection: nat
    var category: nat
    var page: nat
    var revealed: bool

    function State(): NavState
      reads this
    {
      NavState(screen, homeSelection, category, page, revealed)
    }

    constructor ()
      ensures State() == NavState(Home, 0, 0, 0, false)
    {
      screen, homeSelection, category, page, revealed := Home, 0, 0, 0, false;
    }

    method Hide()
      modifies `revealed
      ensures !revealed
    {
      revealed := false;
    }

    method Press(key: Key, counts: seq<nat>)
      requires NavOk(State()) && |counts| == KIND_COUNT
      modifies this
      ensures State() == KeyStep(old(State()), key, counts)
    {
      if key == Back {
        revealed := false;
        page := 0;
        screen := if screen == PageView then CardMenu else Home;
        return;
      }
      match screen {
        case Home =>
          if key == Up || key == Down {
            homeSelection := 1 - homeSelection;
          } else {
            screen := if homeSelection == 1 then ImageView else CardMenu;
            category := 0;
          }
        case CardMenu =>
          if key == Up {
            category := (category + 4) % KIND_COUNT;
          } else if key == Down {
            category := (category + 1) % KIND_COUNT;
          } else {
            screen := PageView;
            page := 0;
            revealed := false;
          }
        case PageView =>
          var count := counts[category];
          if key == Up && count > 0 {
            page := (page + count - 1) % count;
          } else if key == Down && count > 0 {
            page := (page + 1) % count;
          } else if key == Ok {
            revealed := !revealed;
          }
        case ImageView =>
      }
    }
  }

  // ----- what the screen shows

  /** A page by where it came from; pixels stand for themselves. */
  datatype Page = Page(revision: u32, kind: nat, ordinal: nat, isPrivate: bool)

  datatype Ui = Cleared | ResetPrompt | PasskeyPrompt | PageShown(page: Page) | PageHidden | Plain

  function Render(resetConfirm: bool, pairing: bool, screen: Screen, page: Option<Page>, revealed: bool): Ui {
    if resetConfirm then ResetPrompt
    else if pairing then PasskeyPrompt
    else if screen == PageView then
      if page.Some? && (!page.value.isPrivate || revealed) then PageShown(page.value) else PageHidden
    else Plain
  }

  // ----- one pass of the loop, as a function

  datatype Button = ButtonUp | ButtonDown | ButtonOk
  datatype Input = Input(button: Button, long: bool)
  datatype Info = Info(available: bool, revision: u32, counts: seq<nat>)

  /** An image borrowed by the screen: not held, let go after clearing the screen, or kept because the display was locked. */
  datatype Lease = NotHeld | LetGo | Kept

  const FIRST_REVISION: u32 := 0xffff_ffff

  /** What one pass meets: what the received frames did (wipe: an image on show was let go for a new one; fullscreen: one
      is complete; notified: anything else worth a frame), the input, the other subsystems' state, timers, and the outcome
      of every lock and call. storeAtRead is the revision committed by the time the page is read; found is whether that
      page has its private flag set. */
  datatype Pass = Pass(wipe: bool, fullscreen: bool, notified: bool, captureBusy: bool, info: Option<Info>, pairing: bool, released: bool,
                       input: Option<Input>, noticeEnds: bool, idle: bool, longIdle: bool, refresh: bool, image: Lease, avatar: Lease,
                       clearLock: bool, storeAtRead: u32, found: Option<bool>, renderLock: bool)

  predicate PassOk(p: Pass) { p.info.Some? ==> |p.info.value.counts| == KIND_COUNT }

  datatype View = View(nav: NavState, revision: u32, snapshot: Info, dirty: bool, dimmed: bool, dark: bool, resetConfirm: bool,
                       wasPairing: bool, wasReleased: bool, captureSafe: bool, ui: Ui)

  predicate Harmless(ui: Ui) { ui.Cleared? || ui.Plain? }

  predicate ViewOk(v: View) { NavOk(v.nav) && |v.snapshot.counts| == KIND_COUNT && (v.captureSafe ==> Harmless(v.ui)) }

  const FIRST_VIEW := View(NavState(Home, 0, 0, 0, false), FIRST_REVISION, Info(false, 0, [0, 0, 0, 0, 0]), true, false, false, false,
                           false, false, false, Cleared)

  function Hidden(v: View): View { v.(nav := v.nav.(revealed := false)) }

  /** A complete image takes the screen over and conceals the pages. */
  function Received(v: View, wipe: bool, fullscreen: bool, notified: bool): (u: View)
    requires ViewOk(v)
    ensures ViewOk(u) && u.revision == v.revision && u.captureSafe == v.captureSafe && u.snapshot == v.snapshot
    ensures (u.nav.revealed ==> v.nav.revealed) && (u.ui == Cleared || u.ui == v.ui)
  {
    var u := v.(dirty := v.dirty || wipe || fullscreen || notified, ui := if wipe then Cleared else v.ui);
    if fullscreen then u.(nav := u.nav.(screen := ImageView, homeSelection := 1, revealed := false)) else u
  }

  function Refreshed(v: View, info: Option<Info>): View {
    if info.Some? then v.(snapshot := info.value) else v
  }

  /** A snapshot with another revision starts at its first page, concealed. */
  function Adopted(v: View): (u: View)
    requires ViewOk(v)
    ensures ViewOk(u) && u.revision == u.snapshot.revision && u.snapshot == v.snapshot && u.ui == v.ui
    ensures u.nav.revealed ==> v.nav.revealed && u.revision == v.revision
  {
    if v.snapshot.revision == v.revision then v
    else v.(revision := v.snapshot.revision, nav := v.nav.(page := 0, revealed := false), dirty := true)
  }

  function Watched(v: View, pairing: bool, released: bool): (u: View)
    requires ViewOk(v)
    ensures ViewOk(u) && u.nav == v.nav && u.revision == v.revision && u.snapshot == v.snapshot && u.ui == v.ui
    ensures u.resetConfirm == v.resetConfirm
  {
    if pairing == v.wasPairing && released == v.wasReleased then v
    else v.(wasPairing := pairing, wasReleased := released, dirty := true, dimmed := v.dimmed && !pairing, dark := v.dark && !pairing)
  }

  function KeyOf(input: Input): Key {
    if input.long then Back else match input.button case ButtonUp => Up case ButtonDown => Down case ButtonOk => Ok
  }

  /** Whether an input reaches navigation: not the one that wakes the screen, nor an answer to a prompt, nor another long press. */
  predicate Reaches(v: View, input: Input, pairing: bool) {
    !v.dimmed && !v.dark && !pairing && !v.resetConfirm && (input.long ==> input.button == ButtonOk)
  }

  function Keyed(v: View, input: Input, pairing: bool): (u: View)
    requires ViewOk(v)
    ensures ViewOk(u) && u.revision == v.revision && u.snapshot == v.snapshot && u.ui == v.ui
    ensures !Reaches(v, input, pairing) ==> u.nav == v.nav
    ensures u.nav.revealed ==> v.nav.revealed || (v.nav.screen == PageView && input == Input(ButtonOk, false) && Reaches(v, input, pairing))
  {
    if v.dimmed || v.dark then v.(dimmed := false, dark := false, dirty := true)
    else if pairing then v
    else if v.resetConfirm then v.(resetConfirm := false, dirty := true)
    else if Reaches(v, input, pairing) then v.(nav := KeyStep(v.nav, KeyOf(input), v.snapshot.counts), dirty := true)
    else v.(resetConfirm := input.button == ButtonDown, dirty := true)
  }

  /** Thirty idle seconds conceal the page. */
  function Ticked(v: View, p: Pass): (u: View)
    requires ViewOk(v)
    ensures ViewOk(u) && u.revision == v.revision && u.snapshot == v.snapshot && u.ui == v.ui
    ensures (u.nav.revealed ==> v.nav.revealed) && (p.idle && !v.dimmed ==> !u.nav.revealed)
  {
    var u := if p.idle && !v.dimmed then Hidden(v).(resetConfirm := false, dimmed := true) else v;
    u.(dirty := v.dirty || p.noticeEnds || (p.idle && !v.dimmed) || p.refresh, dark := v.dark || p.longIdle)
  }

  /** What an input of this pass meets. */
  function Facing(v: View, p: Pass): (u: View)
    requires ViewOk(v) && PassOk(p)
    ensures ViewOk(u) && u.revision == u.snapshot.revision
    ensures (u.nav.revealed ==> v.nav.revealed && u.revision == v.revision) && (u.ui == Cleared || u.ui == v.ui)
  {
    hide Received, Adopted, Watched;
    Watched(Adopted(Refreshed(Received(v, p.wipe, p.fullscreen, p.notified), p.info)), p.pairing, p.released)
  }

  function Settled(v: View, p: Pass): (u: View)
    requires ViewOk(v) && PassOk(p)
    ensures ViewOk(u) && u.revision == u.snapshot.revision == Facing(v, p).revision && (u.ui == Cleared || u.ui == v.ui)
  {
    hide Facing, Keyed, Ticked, ViewOk;
    var f := Facing(v, p);
    Ticked(if p.input.Some? then Keyed(f, p.input.value, p.pairing) else f, p)
  }

  predicate Stale(v: View, p: Pass) { v.snapshot.available && p.storeAtRead != v.snapshot.revision }

  /** The page under the cursor, unless a commit has landed since the snapshot was adopted. */
  function PageRead(v: View, p: Pass): Option<Page> {
    if !v.snapshot.available || Stale(v, p) || p.found.None? then None
    else Some(Page(v.snapshot.revision, v.nav.category, v.nav.page, p.found.value))
  }

  predicate Frees(p: Pass) { !p.image.Kept? && !p.avatar.Kept? }

  predicate Renders(v: View, p: Pass) { Frees(p) && (v.nav.screen == PageView ==> p.clearLock && !Stale(v, p)) && p.renderLock }

  function Freed(v: View, p: Pass): View {
    var wiped := p.image.LetGo? || (!p.image.Kept? && p.avatar.LetGo?);
    v.(ui := if wiped then Cleared else v.ui, dirty := v.dirty || wiped)
  }

  function Drawn(v: View, p: Pass): Ui {
    Render(v.resetConfirm, p.pairing, v.nav.screen, if v.nav.screen == PageView then PageRead(v, p) else None, v.nav.revealed)
  }

  function Framed(v: View, p: Pass): (u: View)
    requires ViewOk(v)
    ensures ViewOk(u) && u.revision == v.revision
  {
    hide Stale, PageRead;
    var u := Freed(v, p);
    if !Frees(p) || (u.nav.screen == PageView && !p.clearLock) then u
    else if u.nav.screen == PageView && Stale(u, p) then Hidden(u).(ui := Cleared, dirty := true)
    else if !p.renderLock then u.(ui := if u.nav.screen == PageView then Cleared else u.ui)
    else u.(ui := Drawn(u, p), dirty := false, captureSafe := u.nav.screen != PageView && !p.pairing && !u.resetConfirm)
  }

  function Next(v: View, p: Pass): (u: View)
    requires ViewOk(v) && PassOk(p)
    ensures ViewOk(u)
  {
    hide Received, Framed, ViewOk;
    if p.captureBusy then Received(v, p.wipe, p.fullscreen, p.notified)
    else
      var s := Settled(v, p);
      if !s.dirty || s.dark then s else Framed(s, p)
  }

  /** What this pass draws, if it draws. */
  function Rendering(v: View, p: Pass): Option<Ui>
    requires ViewOk(v) && PassOk(p)
  {
    var s := Settled(v, p);
    if p.captureBusy || !s.dirty || s.dark || !Renders(s, p) then None else Some(Drawn(s, p))
  }

  // ----- the loop

  class Loop {
    const nav: Nav
    var revision: u32
    var snapshot: Info
    var dirty: bool
    var dimmed: bool
    var dark: bool
    var resetConfirm: bool
    var wasPairing: bool
    var wasReleased: bool
    var captureSafe: bool
    var ui: Ui

    function State(): View
      reads this, nav
    {
      View(nav.State(), revision, snapshot, dirty, dimmed, dark, resetConfirm, wasPairing, wasReleased, captureSafe, ui)
    }

    constructor ()
      ensures State() == FIRST_VIEW && fresh(nav)
    {
      nav := new Nav();
      revision, snapshot := FIRST_REVISION, Info(false, 0, [0, 0, 0, 0, 0]);
      dirty, dimmed, dark, resetConfirm, wasPairing, wasReleased := true, false, false, false, false, false;
      captureSafe, ui := false, Cleared;
    }

    method Receive(wipe: bool, fullscreen: bool, notified: bool)
      requires ViewOk(State())
      modifies `dirty, `ui, nav
      ensures State() == Received(old(State()), wipe, fullscreen, notified)
    {
      if wipe { ui, dirty := Cleared, true; }
      if notified { dirty := true; }
      if fullscreen {
        dirty := true;
        nav.screen, nav.homeSelection := ImageView, 1;
        nav.Hide();
      }
    }

    method Adopt(info: Option<Info>)
      requires ViewOk(State()) && (info.Some? ==> |info.value.counts| == KIND_COUNT)
      modifies `revision, `snapshot, `dirty, nav
      ensures State() == Adopted(Refreshed(old(State()), info))
    {
      if info.Some? { snapshot := info.value; }
      if snapshot.revision != revision {
        revision := snapshot.revision;
        nav.page := 0;
        nav.Hide();
        dirty := true;
      }
    }

    method WatchPairing(pairing: bool, released: bool)
      requires ViewOk(State())
      modifies `dirty, `dimmed, `dark, `wasPairing, `wasReleased
      ensures State() == Watched(old(State()), pairing, released)
    {
      if pairing != wasPairing || released != wasReleased {
        wasPairing, wasReleased, dirty := pairing, released, true;
        if pairing { dimmed, dark := false, false; }
      }
    }

    method HandleInput(input: Input, pairing: bool)
      requires ViewOk(State())
      modifies `dirty, `dimmed, `dark, `resetConfirm, nav
      ensures State() == Keyed(old(State()), input, pairing)
    {
      if dimmed || dark {
        dimmed, dark, dirty := false, false, true;
      } else if pairing {
        // confirms or refuses the passkey
      } else if resetConfirm {
        resetConfirm, dirty := false, true;
      } else if input.long && input.button == ButtonUp {
        dirty := true;
      } else if input.long && input.button == ButtonDown {
        resetConfirm, dirty := true, true;
      } else {
        var key := if input.long then Back else match input.button case ButtonUp => Up case ButtonDown => Down case ButtonOk => Ok;
        nav.Press(key, snapshot.counts);
        dirty := true;
      }
    }

    method Tick(p: Pass)
      requires ViewOk(State())
      modifies `dirty, `dimmed, `dark, `resetConfirm, nav`revealed
      ensures State() == Ticked(old(State()), p)
    {
      hide ViewOk;
      if p.noticeEnds { dirty := true; }
      if p.idle && !dimmed {
        nav.Hide();
        resetConfirm, dimmed, dirty := false, true, true;
      }
      if p.longIdle && !dark { dark := true; }
      if p.refresh { dirty := true; }
    }

    method ReadPage(p: Pass) returns (stale: bool, page: Option<Page>)
      ensures stale == Stale(State(), p) && page == PageRead(State(), p)
    {
      if !snapshot.available { return false, None; }
      if p.storeAtRead != snapshot.revision { return true, None; }
      stale, page := false, if p.found.Some? then Some(Page(snapshot.revision, nav.category, nav.page, p.found.value)) else None;
    }

    method Free(p: Pass) returns (ok: bool)
      modifies `dirty, `ui
      ensures State() == Freed(old(State()), p) && ok == Frees(p)
    {
      if p.image.Kept? { return false; }
      if p.image.LetGo? { ui, dirty := Cleared, true; }
      if p.avatar.Kept? { return false; }
      if p.avatar.LetGo? { ui, dirty := Cleared, true; }
      ok := true;
    }

    method Frame(p: Pass)
      requires ViewOk(State())
      modifies `ui, `captureSafe, `dirty, nav`revealed
      ensures State() == Framed(old(State()), p)
    {
      hide ViewOk, NavOk, Render;
      var ok := Free(p);
      if !ok { return; }
      var page: Option<Page> := None;
      if nav.screen == PageView {
        if !p.clearLock { return; }
        ui := Cleared;
        var stale;
        stale, page := ReadPage(p);
        if stale {
          nav.Hide();
          dirty := true;
          return;
        }
      }
      if p.renderLock {
        ui := Render(resetConfirm, p.pairing, nav.screen, page, nav.revealed);
        dirty := false;
        captureSafe := nav.screen != PageView && !p.pairing && !resetConfirm;
      }
    }

    /** One pass of the loop. */
    method Iterate(p: Pass)
      requires ViewOk(State()) && PassOk(p)
      modifies this, nav
      ensures State() == Next(old(State()), p)
    {
      hide Received, Refreshed, Adopted, Watched, Keyed, Ticked, Framed, ViewOk;
      Receive(p.wipe, p.fullscreen, p.notified);
      if p.captureBusy { return; }
      Adopt(p.info);
      WatchPairing(p.pairing, p.released);
      if p.input.Some? { HandleInput(p.input.value, p.pairing); }
      Tick(p);
      if !dirty || dark { return; }
      Frame(p);
    }
  }

  // ----- runs

  predicate AllOk(passes: seq<Pass>) { forall p | p in passes :: PassOk(p) }

  function After(passes: seq<Pass>): (v: View)
    requires AllOk(passes)
    ensures ViewOk(v)
  {
    if passes == [] then FIRST_VIEW
    else
      var n := |passes| - 1;
      assert passes[n] in passes && forall p | p in passes[..n] :: p in passes;
      Next(After(passes[..n]), passes[n])
  }

  method Run(passes: seq<Pass>) returns (loop: Loop)
    requires AllOk(passes)
    ensures loop.State() == After(passes)
  {
    loop := new Loop();
    for n := 0 to |passes|
      invariant fresh(loop) && fresh(loop.nav) && AllOk(passes[..n]) && loop.State() == After(passes[..n])
    {
      hide Next, ViewOk;
      assert passes[n] in passes && passes[..n + 1][..n] == passes[..n];
      loop.Iterate(passes[n]);
    }
    assert passes[..|passes|] == passes;
  }

  /** The view before pass k of a run. */
  function Before(passes: seq<Pass>, k: nat): (v: View)
    requires AllOk(passes) && k <= |passes|
    ensures ViewOk(v)
  {
    assert forall p | p in passes[..k] :: p in passes;
    After(passes[..k])
  }

  lemma BeforeNext(passes: seq<Pass>, k: nat)
    requires AllOk(passes) && k < |passes|
    ensures PassOk(passes[k]) && Before(passes, k + 1) == Next(Before(passes, k), passes[k])
  {
    assert passes[k] in passes && passes[..k + 1][..k] == passes[..k];
  }

  /** The holder clicks OK on a concealed page, and the click reaches navigation. */
  predicate RevealsHere(v: View, p: Pass)
    requires ViewOk(v) && PassOk(p)
  {
    var f := Facing(v, p);
    !p.captureBusy && p.input == Some(Input(ButtonOk, false)) && Reaches(f, p.input.value, p.pairing) && f.nav.screen == PageView && !f.nav.revealed
  }

  /** Pages are in the clear after a pass only if they were before it, for the same revision, or OK was clicked in it. */
  lemma StaysRevealed(v: View, p: Pass)
    requires ViewOk(v) && PassOk(p)
    ensures Settled(v, p).nav.revealed && !p.captureBusy ==> RevealsHere(v, p) || (v.nav.revealed && Facing(v, p).revision == v.revision)
    ensures Next(v, p).nav.revealed ==>
              RevealsHere(v, p) || (v.nav.revealed && Next(v, p).revision == v.revision)
    ensures RevealsHere(v, p) ==> Next(v, p).revision == Facing(v, p).revision
  {
    hide Received, Facing, Keyed, Ticked, ViewOk, NavOk, Stale;
  }

  /** OK was clicked in pass j when the loop had adopted revision r, and the pages have been in the clear, for that
      revision, after every pass since. */
  predicate RevealedSince(passes: seq<Pass>, j: nat, n: nat, r: u32)
    requires AllOk(passes)
  {
    j < n <= |passes| && PassOk(passes[j]) && RevealsHere(Before(passes, j), passes[j]) && Facing(Before(passes, j), passes[j]).revision == r &&
    forall k | j < k <= n :: Before(passes, k).nav.revealed && Before(passes, k).revision == r
  }

  ghost predicate Revealed(passes: seq<Pass>, n: nat, r: u32)
    requires AllOk(passes)
  {
    exists j: nat :: RevealedSince(passes, j, n, r)
  }

  lemma {:induction false} RevealedByOk(passes: seq<Pass>, n: nat)
    requires AllOk(passes) && n <= |passes| && Before(passes, n).nav.revealed
    ensures Revealed(passes, n, Before(passes, n).revision)
  {
    hide Next, Facing, ViewOk, Reaches, Settled;
    if n > 0 {
      BeforeNext(passes, n - 1);
      StaysRevealed(Before(passes, n - 1), passes[n - 1]);
      if RevealsHere(Before(passes, n - 1), passes[n - 1]) {
        assert RevealedSince(passes, n - 1, n, Before(passes, n).revision);
      } else {
        RevealedByOk(passes, n - 1);
        var j: nat :| RevealedSince(passes, j, n - 1, Before(passes, n - 1).revision);
        assert RevealedSince(passes, j, n, Before(passes, n).revision);
      }
    }
  }

  /** What a drawing of a page says about its pass. */
  lemma DrawnPage(v: View, p: Pass, page: Page)
    requires ViewOk(v) && PassOk(p) && Rendering(v, p) == Some(PageShown(page))
    ensures Next(v, p).ui == PageShown(page) && Next(v, p).revision == page.revision == p.storeAtRead
    ensures page.isPrivate ==> Next(v, p).nav.revealed
  {
  }

  /** A private page of revision r is drawn in the clear only if OK was clicked while r was the adopted revision and
      nothing has concealed the pages, nor has another revision been adopted, since; whatever commits landed meanwhile. */
  lemma PrivateOnlyRevealed(passes: seq<Pass>, n: nat, page: Page)
    requires AllOk(passes) && n < |passes| && PassOk(passes[n])
    requires Rendering(Before(passes, n), passes[n]) == Some(PageShown(page)) && page.isPrivate
    ensures passes[n].storeAtRead == page.revision
    ensures Revealed(passes, n + 1, page.revision)
  {
    hide Next, Rendering, ViewOk, Revealed;
    DrawnPage(Before(passes, n), passes[n], page);
    BeforeNext(passes, n);
    RevealedByOk(passes, n + 1);
  }

  /** Conversely: the click shows the page under the cursor in the same pass, once every lock is had. */
  lemma RevealShows(v: View, p: Pass)
    requires ViewOk(v) && PassOk(p) && RevealsHere(v, p) && !p.idle && !p.longIdle && Frees(p) && p.clearLock && p.renderLock && p.found.Some?
    ensures var f := Facing(v, p);
            f.snapshot.available && p.storeAtRead == f.revision ==>
              Rendering(v, p) == Some(PageShown(Page(f.revision, f.nav.category, f.nav.page, p.found.value)))
  {
    hide Facing, Received, ViewOk, NavOk;
  }

  /** Nothing is on the screen that no pass has drawn. */
  lemma ScreenNext(v: View, p: Pass)
    requires ViewOk(v) && PassOk(p)
    ensures Next(v, p).ui == Cleared || Next(v, p).ui == v.ui || Rendering(v, p) == Some(Next(v, p).ui)
    ensures Rendering(v, p).Some? ==> Next(v, p).ui == Rendering(v, p).value
  {
    hide Received, Facing, Keyed, Ticked, ViewOk, NavOk, Render;
  }

  predicate DrawnSince(passes: seq<Pass>, m: nat, n: nat)
    requires AllOk(passes)
  {
    m < n <= |passes| && PassOk(passes[m]) && Rendering(Before(passes, m), passes[m]) == Some(Before(passes, n).ui) &&
    forall k | m < k <= n :: Before(passes, k).ui == Before(passes, n).ui
  }

  lemma {:induction false} ScreenWasDrawn(passes: seq<Pass>, n: nat)
    requires AllOk(passes) && n <= |passes| && Before(passes, n).ui != Cleared
    ensures exists m: nat :: DrawnSince(passes, m, n)
  {
    hide Next, Rendering, ViewOk;
    if n > 0 {
      BeforeNext(passes, n - 1);
      ScreenNext(Before(passes, n - 1), passes[n - 1]);
      if Rendering(Before(passes, n - 1), passes[n - 1]) == Some(Before(passes, n).ui) {
        assert DrawnSince(passes, n - 1, n);
      } else {
        ScreenWasDrawn(passes, n - 1);
        var m: nat :| DrawnSince(passes, m, n - 1);
        assert DrawnSince(passes, m, n);
      }
    }
  }

  /** Reveal safety of a whole run: a private page in the clear on the screen was drawn by some pass, has been there since, and
      OK had been clicked for its revision with nothing concealing it up to that drawing. */
  lemma PrivateOnScreen(passes: seq<Pass>)
    requires AllOk(passes) && After(passes).ui.PageShown? && After(passes).ui.page.isPrivate
    ensures exists m: nat :: DrawnSince(passes, m, |passes|) && Revealed(passes, m + 1, After(passes).ui.page.revision)
  {
    hide Next, Rendering, ViewOk, Revealed;
    assert passes[..|passes|] == passes;
    ScreenWasDrawn(passes, |passes|);
    var m: nat :| DrawnSince(passes, m, |passes|);
    PrivateOnlyRevealed(passes, m, After(passes).ui.page);
  }

  /** A screenshot may start only while captureSafe is set: then, and for as long as the capture freezes the loop, the
      screen shows neither a wallet page nor a passkey. */
  lemma {:induction false} CaptureSeesNoSecret(passes: seq<Pass>, m: nat, n: nat)
    requires AllOk(passes) && m <= n <= |passes| && Before(passes, m).captureSafe && forall k | m <= k < n :: passes[k].captureBusy
    ensures Before(passes, n).captureSafe && Harmless(Before(passes, n).ui)
    decreases n
  {
    if m < n {
      CaptureSeesNoSecret(passes, m, n - 1);
      BeforeNext(passes, n - 1);
    }
  }

  // ----- what is drawn, case by case

  /** A frame that is drawn shows the prompt that is due, else on the page screen exactly the page read when it is public or
      revealed, else the screen without a page. */
  lemma DrawsExactly(v: View, p: Pass)
    requires ViewOk(v) && PassOk(p) && Rendering(v, p).Some?
    ensures var s, ui := Settled(v, p), Rendering(v, p).value;
            if s.resetConfirm then ui == ResetPrompt
            else if p.pairing then ui == PasskeyPrompt
            else if s.nav.screen != PageView then ui == Plain
            else if s.snapshot.available && p.found.Some? && (!p.found.value || s.nav.revealed) then
              ui == PageShown(Page(s.revision, s.nav.category, s.nav.page, p.found.value))
            else ui == PageHidden
  {
    hide Settled, Frees;
  }

  /** A public page needs no reveal: whenever the loop draws its screen it is there. */
  lemma PublicPageShows(v: View, p: Pass)
    requires ViewOk(v) && PassOk(p) && !p.captureBusy && p.found == Some(false) && !p.pairing
    requires var s := Settled(v, p);
             s.nav.screen == PageView && s.snapshot.available && !s.resetConfirm && s.dirty && !s.dark && p.storeAtRead == s.revision
    requires p.image != Kept && p.avatar != Kept && p.clearLock && p.renderLock
    ensures Rendering(v, p) == Some(PageShown(Page(Settled(v, p).revision, Settled(v, p).nav.category, Settled(v, p).nav.page, false)))
  {
    hide Settled;
  }

  /** Half a minute without input conceals the page and withdraws a reset question, even if nothing can be drawn; a minute more
      and nothing is drawn at all. */
  lemma IdleConceals(v: View, p: Pass)
    requires ViewOk(v) && PassOk(p) && !p.captureBusy && p.input.None?
    ensures p.idle && !Facing(v, p).dimmed ==> !Next(v, p).nav.revealed && Settled(v, p).dimmed && !Settled(v, p).resetConfirm
    ensures p.longIdle ==> Rendering(v, p).None? && Settled(v, p).dark
  {
    hide Facing;
  }

  /** The input that wakes the screen does nothing else, and while a passkey or a question is up none reaches the pages. */
  lemma WakingOnlyWakes(v: View, p: Pass)
    requires ViewOk(v) && PassOk(p) && p.input.Some? && !p.idle && !p.longIdle
    requires var f := Facing(v, p); f.dimmed || f.dark || p.pairing || f.resetConfirm
    ensures Settled(v, p).nav == Facing(v, p).nav
    ensures Facing(v, p).dimmed || Facing(v, p).dark ==> !Settled(v, p).dimmed && !Settled(v, p).dark && Settled(v, p).dirty
  {
    hide Facing;
  }

  // ----- moving about

  /** Up and Down undo each other wherever they move something: between the two home buttons, around the categories and around
      the pages of one; the long press leads from a page to the categories and from there home, and conceals. */
  lemma KeysWalk(v: NavState, counts: seq<nat>)
    requires NavOk(v) && |counts| == KIND_COUNT && v.page <= (if counts[v.category] == 0 then v.page else counts[v.category] - 1)
    ensures KeyStep(KeyStep(v, Up, counts), Down, counts) == v && KeyStep(KeyStep(v, Down, counts), Up, counts) == v
    ensures var w := KeyStep(v, Back, counts);
            !w.revealed && w.page == 0 && w.screen == if v.screen == PageView then CardMenu else Home
    ensures v.screen == CardMenu ==>
              var w := KeyStep(v, Ok, counts); w.screen == PageView && w.category == v.category && w.page == 0 && !w.revealed
    ensures v.screen == Home ==>
              KeyStep(v, Ok, counts).screen == (if v.homeSelection == 1 then ImageView else CardMenu) && KeyStep(v, Up, counts) != v
    ensures v.screen == CardMenu ==> KeyStep(v, Down, counts).category == if v.category == 4 then 0 else v.category + 1
    ensures v.screen == PageView && counts[v.category] > 1 ==>
              KeyStep(v, Down, counts).page == if v.page + 1 == counts[v.category] then 0 else v.page + 1
  {
    var n := counts[v.category];
    if n > 0 {
      Around(v.page, n);
    }
  }

  lemma Around(page: nat, n: nat)
    requires page < n
    ensures (page + 1) % n == if page + 1 == n then 0 else page + 1
    ensures (page + n - 1) % n == if page == 0 then n - 1 else page - 1
    ensures ((page + 1) % n + n - 1) % n == page && ((page + n - 1) % n + 1) % n == page
  {
    var next := if page + 1 == n then 0 else page + 1;
    var last := if page == 0 then n - 1 else page - 1;
    Wrap(page + 1, n);
    Wrap(page + n - 1, n);
    Wrap(next + n - 1, n);
    Wrap(last + 1, n);
  }

  lemma Wrap(x: nat, n: nat)
    requires x < 2 * n
    ensures x % n == if x < n then x else x - n
  {
    if x >= n { assert x == n + (x - n); }
  }
}
