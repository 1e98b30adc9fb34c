/** The dashboard of screens/dashboard.py: a greeting chosen by the local
    hour, the user's name when the app knows it, and the search dialog's
    stripped query. The hour and the app's `current_user_name` are
    inputs. */
module Dashboard {
  import opened Text
  import opened AppShell

  const Morning := "Bom dia"
  const Afternoon := "Boa tarde"
  const Evening := "Boa noite"
  const DefaultGreeting := "Olá"
  const DefaultUserName := "Carol"
  const SearchPrefix := "Buscando por: "
  const EmptyQuery := "vazio"

  /** The greeting of `on_pre_enter` for an hour of the day. */
  function Greeting(hour: int): (g: string)
    ensures g == Morning <==> 5 <= hour < 12
    ensures g == Afternoon <==> 12 <= hour < 18
    ensures g == Evening <==> hour < 5 || 18 <= hour
  {
    assert Morning[2] != Afternoon[2] && Morning[2] != Evening[2] && Afternoon[4] != Evening[4];
    if 5 <= hour < 12 then Morning
    else if 12 <= hour < 18 then Afternoon
    else Evening
  }

  /** Over a day the greeting changes exactly three times: at 5, at 12 and
      at 18. */
  lemma GreetingChangesAt(hour: int)
    requires 0 <= hour < 23
    ensures Greeting(hour) != Greeting(hour + 1) <==> hour + 1 == 5 || hour + 1 == 12 || hour + 1 == 18
  {
  }

  /** The query `_confirm_search` reports: the field's text stripped, or
      "vazio" when there is no field or nothing but whitespace in it. The
      reported query is never empty and has no whitespace at its ends. */
  function SearchQuery(field: Option<string>): (q: string)
    ensures q != [] && !IsSpace(q[0]) && !IsSpace(q[|q| - 1])
    ensures field.None? ==> q == EmptyQuery
    ensures field.Some? && Strip(field.value) != "" ==> q == Strip(field.value)
    ensures field.Some? && Strip(field.value) == "" ==> q == EmptyQuery
  {
    assert !IsSpace(EmptyQuery[0]) && !IsSpace(EmptyQuery[4]);
    var text := if field.Some? then Strip(field.value) else "";
    if text != "" then text else EmptyQuery
  }

  /** The toast `_confirm_search` shows. */
  function SearchMessage(field: Option<string>): string
  {
    SearchPrefix + SearchQuery(field)
  }

  /** Whitespace around the query does not change what is reported. */
  lemma SearchIgnoresPadding(text: string)
    ensures SearchQuery(Some(Strip(text))) == SearchQuery(Some(text))
  {
    StripIdempotent(text);
  }

  /** A field holding only whitespace reads as an empty query. */
  lemma BlankSearchIsEmpty(text: string)
    requires forall i | 0 <= i < |text| :: IsSpace(text[i])
    ensures SearchQuery(Some(text)) == SearchQuery(None)
  {
    StripOfBlank(text);
  }

  /** `DashboardScreen`: its two labels and whether the search dialog is
      open. */
  class DashboardScreen {
    var greeting: string
    var userName: string
    var searchOpen: bool

    constructor ()
      ensures greeting == DefaultGreeting && userName == DefaultUserName && !searchOpen
    {
      greeting := DefaultGreeting;
      userName := DefaultUserName;
      searchOpen := false;
    }

    /** `on_pre_enter`: the greeting follows the hour; the name is replaced
        only by a non-empty `current_user_name` (`None` when the app has no
        such attribute). */
    method OnPreEnter(hour: int, currentUserName: Option<string>)
      modifies this
      ensures greeting == Greeting(hour) && searchOpen == old(searchOpen)
      ensures currentUserName.Some? && currentUserName.value != "" ==> userName == currentUserName.value
      ensures !(currentUserName.Some? && currentUserName.value != "") ==> userName == old(userName)
    {
      if 5 <= hour < 12 {
        greeting := Morning;
      } else if 12 <= hour < 18 {
        greeting := Afternoon;
      } else {
        greeting := Evening;
      }
      if currentUserName.Some? && currentUserName.value != "" {
        userName := currentUserName.value;
      }
    }

    /** `open_search`: the dialog is opened, or reopened. */
    method OpenSearch()
      modifies this
      ensures searchOpen && greeting == old(greeting) && userName == old(userName)
    {
      searchOpen := true;
    }

    /** `_confirm_search`: the query is shown in a toast and the dialog is
        closed. */
    method ConfirmSearch(app: MyApp, field: Option<string>)
      modifies this, app
      ensures app.toasts == old(app.toasts) + [SearchMessage(field)]
      ensures app.root == old(app.root) && app.errorDialog == old(app.errorDialog) && app.loaderDialog == old(app.loaderDialog)
      ensures !searchOpen && greeting == old(greeting) && userName == old(userName)
    {
      var text := if field.Some? then Strip(field.value) else "";
      app.Toast(SearchPrefix + (if text != "" then text else EmptyQuery));
      searchOpen := false;
    }
  }
}
