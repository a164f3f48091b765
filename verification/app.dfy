/**
 * The application shell: which screen is showing, and the readings last
 * submitted. Three handlers move between the home page, the input form
 * and the results page.
 */
module AppState {
  import opened Soil

  datatype View = Home | Form | Results

  /** The two state cells: the current view and the submitted readings, if any. */
  datatype State = State(view: View, data: Option<SoilData>)

  /** What the user can do: start an analysis, submit the form, or go back home. */
  datatype Event = StartAnalysis | FormSubmit(submitted: SoilData) | BackToHome

  /** The state before any event: the home page, with no readings. */
  const Initial := State(Home, None)

  /**
   * The state an event leads to. Whatever the state before, the state
   * after is consistent, and readings are held afterwards unless the
   * event went home or started an analysis without any.
   */
  function Step(s: State, e: Event): (t: State)
    ensures Consistent(t)
    ensures t.data.None? <==> e.BackToHome? || (e.StartAnalysis? && s.data.None?)
    ensures t.view == Results <==> e.FormSubmit?
  {
    match e
    case StartAnalysis => s.(view := Form)
    case FormSubmit(d) => State(Results, Some(d))
    case BackToHome => State(Home, None)
  }

  /** The states after each event of a sequence in turn. */
  function Run(s: State, events: seq<Event>): State
    decreases |events|
  {
    if |events| == 0 then s else Run(Step(s, events[0]), events[1..])
  }

  /** The results page is only ever shown with readings to show. */
  predicate Consistent(s: State)
  {
    s.view == Results ==> s.data.Some?
  }

  /** What is rendered below the header. */
  datatype Screen = HomePage | InputForm | ResultsPage(shown: SoilData) | Nothing

  /**
   * The home page in the home view, the form in the form view, and the
   * results for the submitted readings in the results view when there
   * are readings; otherwise nothing.
   */
  function Render(s: State): (screen: Screen)
    ensures screen.HomePage? <==> s.view == Home
    ensures screen.InputForm? <==> s.view == Form
    ensures screen.ResultsPage? <==> s.view == Results && s.data.Some?
    ensures screen.ResultsPage? ==> s.data == Some(screen.shown)
  {
    match s.view
    case Home => HomePage
    case Form => InputForm
    case Results => if s.data.Some? then ResultsPage(s.data.value) else Nothing
  }

  /** The initial state is consistent. */
  lemma InitialConsistent()
    ensures Consistent(Initial)
    ensures Render(Initial) == HomePage
  {
  }

  /** Each event keeps the state consistent. */
  lemma StepPreservesConsistent(s: State, e: Event)
    requires Consistent(s)
    ensures Consistent(Step(s, e))
  {
  }

  /**
   * Every state reachable from the initial one by any sequence of events
   * is consistent, so it always renders something, and the results view
   * always renders the results page for the readings held.
   */
  lemma {:induction false} RunConsistent(s: State, events: seq<Event>)
    requires Consistent(s)
    ensures Consistent(Run(s, events))
    ensures Render(Run(s, events)) != Nothing
    ensures Run(s, events).view == Results ==> Render(Run(s, events)) == ResultsPage(Run(s, events).data.value)
    decreases |events|
  {
    if |events| > 0 {
      StepPreservesConsistent(s, events[0]);
      RunConsistent(Step(s, events[0]), events[1..]);
    }
  }

  /**
   * Starting an analysis only changes the view; submitting records the
   * readings; going home forgets them and doing it twice is doing it once.
   */
  lemma HandlerEffects(s: State, d: SoilData)
    ensures Step(s, StartAnalysis).data == s.data && Step(s, StartAnalysis).view == Form
    ensures Step(s, FormSubmit(d)).data == Some(d) && Step(s, FormSubmit(d)).view == Results
    ensures Step(Step(s, BackToHome), BackToHome) == Step(s, BackToHome) == Initial
  {
  }

  /** Only going home forgets submitted readings. */
  lemma {:induction false} ReadingsKeptUntilHome(s: State, events: seq<Event>)
    requires s.data.Some?
    requires forall i :: 0 <= i < |events| ==> events[i] != BackToHome
    ensures Run(s, events).data.Some?
    decreases |events|
  {
    if |events| > 0 {
      ReadingsKeptUntilHome(Step(s, events[0]), events[1..]);
    }
  }

  /** The application component: its two state cells, updated by the handlers. */
  class App {
    var currentView: View
    var soilData: Option<SoilData>

    /** The state the two cells hold. */
    function Current(): State
      reads this
    {
      State(currentView, soilData)
    }

    predicate Valid()
      reads this
    {
      Consistent(Current())
    }

    constructor ()
      ensures Current() == Initial && Valid()
    {
      currentView := Home;
      soilData := None;
    }

    method HandleStartAnalysis()
      modifies this
      ensures Current() == Step(old(Current()), StartAnalysis)
      ensures currentView == Form && soilData == old(soilData)
      ensures Valid()
    {
      currentView := Form;
    }

    method HandleFormSubmit(data: SoilData)
      modifies this
      ensures Current() == Step(old(Current()), FormSubmit(data))
      ensures currentView == Results && soilData == Some(data)
      ensures Valid()
    {
      soilData := Some(data);
      currentView := Results;
    }

    method HandleBackToHome()
      modifies this
      ensures Current() == Step(old(Current()), BackToHome)
      ensures Current() == Initial
      ensures Valid()
    {
      currentView := Home;
      soilData := None;
    }

    /** The screen for the current state; the results view always shows the readings held. */
    method Show() returns (screen: Screen)
      ensures screen == Render(Current())
      ensures Valid() ==> screen != Nothing
      ensures Valid() && currentView == Results ==> screen == ResultsPage(soilData.value)
    {
      if currentView == Home {
        screen := HomePage;
      } else if currentView == Form {
        screen := InputForm;
      } else if soilData.Some? {
        screen := ResultsPage(soilData.value);
      } else {
        screen := Nothing;
      }
    }
  }
}
