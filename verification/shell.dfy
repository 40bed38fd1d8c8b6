/**
 The application view as a whole: the carousel state it owns, and the
 comparison widget's instance state, which exists while the widget is
 mounted. The widget sits inside a block rendered only while there is at
 least one record, so React creates a fresh instance when the first batch
 arrives, drops it when a batch is empty, and otherwise keeps the same
 instance (and its slider, zoom and drag state) across navigation and
 across later uploads.
 */
module Shell {
  import opened Basics
  import opened Records
  import Carousel
  import Comparison
  import Upload

  /** The carousel, and the widget's state while it is mounted. */
  datatype App = App(carousel: Carousel.State, widget: Option<Comparison.State>)

  /** The application view before anything happens. */
  const Initial: App := App(Carousel.Initial, None)

  /** The carousel is valid, and the widget is mounted, with a valid state, exactly when there are records. */
  predicate Valid(a: App) {
    && Carousel.Valid(a.carousel)
    && (a.widget.Some? <==> |a.carousel.images| > 0)
    && (a.widget.Some? ==> Comparison.Valid(a.widget.value))
  }

  /** What the user (or a finished workflow run) can do to the view. */
  datatype Event =
    | NextClicked
    | PrevClicked
    | WidgetEvent(e: Comparison.Event)
    | UploadFinished(run: Upload.Run)

  /** The widget instance once the records go from `before` to `after`. */
  function Remount(w: Option<Comparison.State>, before: seq<ImageRecord>, after: seq<ImageRecord>): (w': Option<Comparison.State>)
    requires w.Some? <==> |before| > 0
    ensures w'.Some? <==> |after| > 0
    ensures |before| == 0 && |after| > 0 ==> w' == Some(Comparison.Initial)
    ensures |before| > 0 && |after| > 0 ==> w' == w
  {
    if |after| == 0 then None else if |before| == 0 then Some(Comparison.Initial) else w
  }

  /**
   The view's response to one event, in any state reachable from `Initial`.
   Navigation buttons act only when they are rendered and enabled; widget
   events arrive only while the widget shows a record.
   */
  function Step(a: App, e: Event): (r: App)
    requires Valid(a)
    ensures Valid(r)
    ensures (e.NextClicked? || e.PrevClicked?) ==>
              r.widget == a.widget && r.carousel.images == a.carousel.images
    ensures Carousel.NavigationShown(a.carousel) && !Carousel.NavigationDisabled(a.carousel) ==>
              && (e.NextClicked? ==> r.carousel == Carousel.Next(a.carousel))
              && (e.PrevClicked? ==> r.carousel == Carousel.Prev(a.carousel))
    ensures Carousel.NavigationDisabled(a.carousel) && (e.NextClicked? || e.PrevClicked?) ==> r == a
    ensures e.WidgetEvent? ==> r.carousel == a.carousel
    ensures e.WidgetEvent? && a.widget.Some? ==> r.widget == Some(Comparison.Step(a.widget.value, e.e))
    ensures e.WidgetEvent? && a.widget.None? ==> r == a
    ensures e.UploadFinished? ==> r.widget == Remount(a.widget, a.carousel.images, r.carousel.images)
    ensures e.UploadFinished? && !e.run.Succeeded? ==> r == a
    ensures e.UploadFinished? && e.run.Succeeded? ==>
              r.carousel.images == e.run.records && r.carousel.index == 0
  {
    match e
    case NextClicked =>
      if Carousel.NavigationShown(a.carousel) && !Carousel.NavigationDisabled(a.carousel)
      then a.(carousel := Carousel.Next(a.carousel)) else a
    case PrevClicked =>
      if Carousel.NavigationShown(a.carousel) && !Carousel.NavigationDisabled(a.carousel)
      then a.(carousel := Carousel.Prev(a.carousel)) else a
    case WidgetEvent(we) =>
      if a.widget.Some? && Carousel.Current(a.carousel).Some?
      then a.(widget := Some(Comparison.Step(a.widget.value, we))) else a
    case UploadFinished(run) =>
      var c := Upload.Apply(a.carousel, run);
      App(c, Remount(a.widget, a.carousel.images, c.images))
  }

  /** The view after a sequence of events, in order. */
  function Run(a: App, es: seq<Event>): (r: App)
    requires Valid(a)
    ensures Valid(r)
    decreases |es|
  {
    if es == [] then a else Run(Step(a, es[0]), es[1..])
  }

  /** The initial view satisfies the mount invariant, and every sequence of events keeps it. */
  lemma ReachableValid(es: seq<Event>)
    ensures Valid(Initial)
    ensures Valid(Run(Initial, es))
  {
  }

  /** A first non-empty batch mounts a fresh widget; a later one keeps the widget's state. */
  lemma UploadMountRule(a: App, run: Upload.Run)
    requires Valid(a) && run.Succeeded? && |run.records| > 0
    ensures |a.carousel.images| == 0 ==> Step(a, UploadFinished(run)).widget == Some(Comparison.Initial)
    ensures |a.carousel.images| > 0 ==> Step(a, UploadFinished(run)).widget == a.widget
  {
  }

  /** A navigation round trip restores the whole view. */
  lemma NavigationRoundTrip(a: App)
    requires Valid(a)
    ensures Step(Step(a, NextClicked), PrevClicked) == a
    ensures Step(Step(a, PrevClicked), NextClicked) == a
  {
    if Carousel.NavigationShown(a.carousel) && !Carousel.NavigationDisabled(a.carousel) {
      Carousel.NextPrevInverse(a.carousel);
    }
  }

  /** What the application view displays. */
  datatype Screen = Screen(
    shown: Option<ImageRecord>,            // the record whose original and upscaled images are displayed
    comparison: Option<Comparison.View>,   // the comparison widget, if it renders anything
    navigationDisabled: Option<bool>,      // the navigation buttons, if rendered: whether disabled
    analysis: Option<Analysis>)            // the analysis panel's data, if it renders anything

  /** The display for a state. */
  function Render(a: App): (s: Screen)
    requires Valid(a)
    ensures s.shown.Some? <==> |a.carousel.images| > 0
    ensures s.shown.Some? ==> s.shown.value == a.carousel.images[a.carousel.index]
    ensures s.comparison.Some? <==> |a.carousel.images| > 0
    ensures s.comparison.Some? ==> s.comparison.value == Comparison.Render(a.widget.value)
    ensures s.analysis.Some? <==> |a.carousel.images| > 0
    ensures s.analysis.Some? ==> s.analysis.value == a.carousel.images[a.carousel.index].analysis
    ensures s.navigationDisabled.Some? <==> |a.carousel.images| > 0
    ensures s.navigationDisabled.Some? ==> (s.navigationDisabled.value <==> |a.carousel.images| <= 1)
  {
    var current := Carousel.Current(a.carousel);
    Screen(
      current,
      if a.widget.Some? && current.Some? then Some(Comparison.Render(a.widget.value)) else None,
      if Carousel.NavigationShown(a.carousel) then Some(Carousel.NavigationDisabled(a.carousel)) else None,
      if current.Some? then Some(current.value.analysis) else None)
  }
}
