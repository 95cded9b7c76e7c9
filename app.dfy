/**
 * The application shell: the splash gate (`showHomepage`), the current
 * page, page navigation, and the scroll-to-top effect keyed on the current
 * page. The splash is the LogoAnimation sequencer, whose completion
 * callback opens the gate; once the gate is open the splash is unmounted.
 */
module App {
  import opened Pages
  import LogoAnimation

  /** What the root element renders. */
  datatype View = SplashView | PageView(page: Page)

  /** `{currentPage === p && <PageFor p />}`: one conditional child. */
  function Slot(current: Page, p: Page): (v: seq<View>)
    ensures v == [] <==> current != p
    ensures v != [] ==> v == [PageView(p)]
  {
    if current == p then [PageView(p)] else []
  }

  /**
   * The children of the root: the splash, or the ten conditional page slots
   * in source order. Before the gate opens only the splash renders, whatever
   * the page; afterwards exactly one page renders, the current one: the ten
   * conditions are exclusive and exhaustive.
   */
  function Render(showHomepage: bool, current: Page): (views: seq<View>)
    ensures !showHomepage ==> views == [SplashView]
    ensures showHomepage ==> views == [PageView(current)]
  {
    if !showHomepage then [SplashView]
    else
      Slot(current, Home) + Slot(current, Data) + Slot(current, Creative)
      + Slot(current, Wayfair) + Slot(current, Gcc) + Slot(current, DailyBeast)
      + Slot(current, DuPont) + Slot(current, Aaroha) + Slot(current, ShaktiVikasa)
      + Slot(current, Movement)
  }

  /** The App component's state and the window's scroll position. */
  class Site {
    var showHomepage: bool
    var currentPage: Page
    /** `window.scrollY`. */
    var scrollY: real
    /** How many times the scroll-to-top effect has run. */
    var scrollResets: nat
    /** The LogoAnimation instance rendered while the gate is closed. */
    const splash: LogoAnimation.Splash

    /** The gate is open exactly when the splash's callback has run, and then the splash is gone. */
    ghost predicate Valid()
      reads this, splash
    {
      && splash.Valid()
      && (showHomepage <==> splash.completions == 1)
      && (showHomepage <==> !splash.mounted)
      && 0.0 <= scrollY
    }

    /** Mount: gate closed, home page selected, splash started, and the effect's first run scrolls to 0. */
    constructor ()
      ensures Valid() && fresh(splash)
      ensures !showHomepage && currentPage == Home
      ensures scrollY == 0.0 && scrollResets == 1
      ensures splash.now == 0 && splash.stage == LogoAnimation.Pulse
    {
      showHomepage := false;
      currentPage := Home;
      scrollY := 0.0;
      scrollResets := 1;
      splash := new LogoAnimation.Splash();
    }

    function Views(): seq<View>
      reads this
    {
      Render(showHomepage, currentPage)
    }

    /**
     * Let the clock run to t. If the splash's completion callback runs,
     * the gate opens and the splash unmounts; the gate never closes again.
     */
    method Elapse(t: int)
      requires Valid() && splash.now <= t
      modifies this, splash
      ensures Valid()
      ensures showHomepage <==> old(showHomepage) || t >= 7000
      ensures currentPage == old(currentPage) && scrollY == old(scrollY) && scrollResets == old(scrollResets)
      ensures !old(showHomepage) ==> splash.stage == LogoAnimation.StageAt(t)
    {
      splash.AdvanceTo(t);
      if !showHomepage && splash.completions == 1 {
        showHomepage := true;
        splash.Unmount();
      }
    }

    /**
     * `handleNavigate(p)`: the page becomes p. React skips the re-render
     * when p is already current, so the effect only runs on a change.
     */
    method Navigate(p: Page)
      requires Valid()
      modifies this`currentPage, this`scrollY, this`scrollResets
      ensures Valid() && currentPage == p
      ensures p != old(currentPage) ==> scrollY == 0.0 && scrollResets == old(scrollResets) + 1
      ensures p == old(currentPage) ==> scrollY == old(scrollY) && scrollResets == old(scrollResets)
    {
      if p != currentPage {
        currentPage := p;
        scrollY := 0.0;
        scrollResets := scrollResets + 1;
      }
    }

    /** The visitor scrolls the window. */
    method UserScrolls(y: real)
      requires Valid() && 0.0 <= y
      modifies this`scrollY
      ensures Valid() && scrollY == y
    {
      scrollY := y;
    }
  }

  /**
   * A visit: wait t ms, then (if a page is showing) scroll down and open p.
   * Before 7000 ms only the splash is on screen; from then on exactly p is,
   * and a change of page lands at the top.
   */
  method Visit(t: int, y: real, p: Page) returns (views: seq<View>, finalY: real)
    requires 0 <= t && 0.0 <= y
    ensures t < 7000 ==> views == [SplashView] && finalY == 0.0
    ensures t >= 7000 ==> views == [PageView(p)]
    ensures t >= 7000 && p != Home ==> finalY == 0.0
    ensures t >= 7000 && p == Home ==> finalY == y
  {
    var site := new Site();
    site.Elapse(t);
    if site.showHomepage {
      site.UserScrolls(y);
      site.Navigate(p);
    }
    views, finalY := site.Views(), site.scrollY;
  }
}
