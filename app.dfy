/**
 * The top-level controller: which screen is shown, whether a theme is being
 * generated, the generated theme, the topic it was generated for and the
 * error toast. `handleGenerate` is split into its synchronous start and the
 * completion that runs once `generateThemeText` settles.
 */
module App {
  import opened Wrappers
  import opened JsText
  import opened Types
  import opened GeminiService

  datatype View = InputView | ResultsView

  /** The one message the error toast ever shows. */
  const GenerateErrorMessage: string :=
    "Não foi possível gerar o tema. Verifique sua chave API ou tente novamente."

  /** `view === 'input'`: the topic form is rendered. */
  predicate ShowsInputForm(view: View): (shown: bool)
    ensures shown ==> forall themeData :: !ShowsDashboard(view, themeData)
  {
    view == InputView
  }

  /** `view === 'results' && themeData`: the dashboard is rendered. A theme
      object is always truthy, so only its presence matters. */
  predicate ShowsDashboard(view: View, themeData: Option<ThemeTextData>): (shown: bool)
    ensures shown ==> view != InputView && themeData.Some?
  {
    view == ResultsView && themeData.Some?
  }

  /** `error &&`: the toast is rendered for a non-empty message. */
  predicate ShowsErrorToast(error: Option<string>): (shown: bool)
    ensures error == None ==> !shown
    ensures error == Some(GenerateErrorMessage) ==> shown
  {
    Truthy(error)
  }

  /** While the results view always has a theme, exactly one of the two
      screens is rendered. */
  lemma ExactlyOneScreen(view: View, themeData: Option<ThemeTextData>)
    requires view == ResultsView ==> themeData.Some?
    ensures ShowsInputForm(view) != ShowsDashboard(view, themeData)
  {
  }

  /** Without a theme the results view renders nothing at all. */
  lemma ResultsWithoutThemeIsBlank(themeData: Option<ThemeTextData>)
    requires themeData.None?
    ensures !ShowsInputForm(ResultsView) && !ShowsDashboard(ResultsView, themeData)
  {
  }

  class App {
    var view: View
    var loading: bool
    var themeData: Option<ThemeTextData>
    var currentTopic: string
    var error: Option<string>

    /** The results view always has a theme to show, and the only error
        ever raised is the fixed generation message. */
    ghost predicate Valid()
      reads this
    {
      && (view == ResultsView ==> themeData.Some?)
      && (error.Some? ==> error.value == GenerateErrorMessage)
    }

    /** The five `useState` initial values. */
    constructor()
      ensures view == InputView && !loading && themeData == None
      ensures currentTopic == "" && error == None
      ensures Valid()
    {
      view := InputView;
      loading := false;
      themeData := None;
      currentTopic := "";
      error := None;
    }

    /** The synchronous part of `handleGenerate`: loading starts, the toast
        is cleared and the topic is remembered; the screen stays as it is. */
    method GenerateStart(topic: string)
      requires Valid()
      modifies this
      ensures loading && error == None && currentTopic == topic
      ensures view == old(view) && themeData == old(themeData)
      ensures Valid()
    {
      loading := true;
      error := None;
      currentTopic := topic;
    }

    /** The rest of `handleGenerate` once `generateThemeText` settles. A theme
        is shown on the results screen; any failure raises the fixed message
        and keeps the screen, the previous theme and the topic. Loading ends
        either way. */
    method GenerateCompleted(outcome: Result<ThemeTextData, ServiceError>)
      requires Valid()
      modifies this
      ensures outcome.Success? ==> themeData == Some(outcome.value) && view == ResultsView
      ensures outcome.Success? ==> error == old(error)
      ensures outcome.Failure? ==> error == Some(GenerateErrorMessage)
      ensures outcome.Failure? ==> view == old(view) && themeData == old(themeData)
      ensures currentTopic == old(currentTopic)
      ensures !loading
      ensures Valid()
    {
      if outcome.Success? {
        themeData := Some(outcome.value);
        view := ResultsView;
      } else {
        error := Some(GenerateErrorMessage);
      }
      loading := false;
    }

    /** `handleBack`: back to the form, forgetting the theme and the topic.
        The toast and the loading flag are left as they are. */
    method Back()
      requires Valid()
      modifies this
      ensures view == InputView && themeData == None && currentTopic == ""
      ensures error == old(error) && loading == old(loading)
      ensures Valid()
    {
      view := InputView;
      themeData := None;
      currentTopic := "";
    }

    /** The toast's close button: the error goes, nothing else changes. */
    method DismissError()
      requires Valid()
      modifies this
      ensures error == None
      ensures view == old(view) && loading == old(loading)
      ensures themeData == old(themeData) && currentTopic == old(currentTopic)
      ensures Valid()
    {
      error := None;
    }
  }

  /** A fresh app generates a theme for `topic` through the text service.
      On success the dashboard shows the parsed theme for that topic; on any
      failure the form stays, with the toast, and the topic is still
      remembered although nothing was generated for it. */
  method GenerateFromStart(
    topic: string,
    provider: string -> Result<TextResponse, ProviderError>,
    parse: string -> Option<ThemeTextData>)
    returns (dashboard: bool, toast: bool, remembered: string, loading: bool)
    ensures var outcome := GenerateThemeText(topic, provider, parse);
      && (dashboard <==> outcome.Success?)
      && (toast <==> outcome.Failure?)
      && remembered == topic
      && !loading
  {
    var app := new App();
    app.GenerateStart(topic);
    var outcome := GenerateThemeText(topic, provider, parse);
    app.GenerateCompleted(outcome);
    dashboard := ShowsDashboard(app.view, app.themeData);
    toast := ShowsErrorToast(app.error);
    remembered := app.currentTopic;
    loading := app.loading;
  }

  /** A theme is generated and shown, then the user goes back: the form
      returns empty-handed and, since the successful attempt started by
      clearing the toast, there is no toast either. */
  method GenerateThenBack(topic: string, theme: ThemeTextData)
    returns (shownTopic: string, form: bool, toast: bool, remembered: string)
    ensures shownTopic == topic
    ensures form && !toast && remembered == ""
  {
    var app := new App();
    app.GenerateStart(topic);
    app.GenerateCompleted(Success(theme));
    assert ShowsDashboard(app.view, app.themeData);
    shownTopic := app.currentTopic;
    app.Back();
    form := ShowsInputForm(app.view);
    toast := ShowsErrorToast(app.error);
    remembered := app.currentTopic;
  }
}
