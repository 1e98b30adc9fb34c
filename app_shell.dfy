/** The application shell of main.py: the screen manager with its nine
    registered screens, navigation that refuses unknown screens, root
    swapping that keeps the current screen when it can, one slot each for
    the error dialog and the loader dialog, toasts, and the theme toggle. */
module AppShell {
  import opened Text

  /** The screens `_build_root` registers, in registration order. */
  const ScreenNames: seq<string> :=
    ["login", "signup", "forgot", "verify", "cadastro", "home", "dashboard", "choose_sports", "shell"]

  const ApiBaseUrl := "http://127.0.0.1:8000"
  const DefaultLoaderText := "Carregando..."
  const DefaultErrorTitle := "Erro"
  const NavigationTitle := "Navegação"

  /** An `MDDialog` with a title and a text. */
  datatype Dialog = Dialog(title: string, text: string)

  /** Python's `repr` of a list of plain strings, as the navigation error
      prints the registered names. */
  function NamesRepr(names: seq<string>): string
  {
    "[" + Join(seq(|names|, i requires 0 <= i < |names| => "'" + names[i] + "'"), ", ") + "]"
  }

  /** The message `goto` shows for a screen it cannot go to. */
  function NotFoundMessage(name: string, registered: Option<seq<string>>): string
  {
    "Tela '" + name + "' não encontrada. Telas disponíveis: "
      + (if registered.Some? then NamesRepr(registered.value) else "sem root")
  }

  /** `theme_style` after `toggle_theme`. */
  function Toggled(style: string): (r: string)
    ensures r == "Light" || r == "Dark"
    ensures r == "Dark" <==> style == "Light"
  {
    if style == "Light" then "Dark" else "Light"
  }

  /** Toggling twice restores exactly the two theme styles there are; any
      other style settles on "Dark" after two toggles. */
  lemma ToggleTwice(style: string)
    ensures Toggled(Toggled(style)) == style <==> style == "Light" || style == "Dark"
  {
  }

  /** `RootManager`, a Kivy `ScreenManager`: the names of its screens in
      the order they were added, the current one, and the `email`
      property of its `verify` screen. */
  class RootManager {
    var screenNames: seq<string>
    var current: string
    var verifyEmail: string

    /** There is a current screen once one is registered, and it is one of
        them; names are unique. */
    ghost predicate Valid()
      reads this
    {
      && (screenNames != [] ==> current in screenNames)
      && (forall i, j | 0 <= i < j < |screenNames| :: screenNames[i] != screenNames[j])
    }

    /** `_build_root`: the nine screens, then `current = "login"`. */
    constructor Build()
      ensures Valid() && screenNames == ScreenNames && current == "login" && verifyEmail == ""
    {
      screenNames := [];
      current := "";
      verifyEmail := "";
      new;
      for i := 0 to |ScreenNames|
        invariant screenNames == ScreenNames[..i] && Valid() && verifyEmail == ""
        invariant i > 0 ==> current == "login"
      {
        AddScreen(ScreenNames[i]);
      }
      SetCurrent("login");
    }

    /** `add_widget(screen)`: Kivy refuses a second screen of the same
        name, and the first screen added becomes the current one. */
    method AddScreen(name: string)
      requires Valid() && name !in screenNames
      modifies this
      ensures Valid() && screenNames == old(screenNames) + [name] && verifyEmail == old(verifyEmail)
      ensures current == if old(screenNames) == [] then name else old(current)
    {
      screenNames := screenNames + [name];
      if |screenNames| == 1 {
        current := name;
      }
    }

    /** Assigning `current`: Kivy raises for a name it does not know. */
    method SetCurrent(name: string)
      requires Valid() && name in screenNames
      modifies this
      ensures Valid() && current == name && screenNames == old(screenNames) && verifyEmail == old(verifyEmail)
    {
      current := name;
    }

    /** Assigning the `verify` screen's `email`. */
    method SetVerifyEmail(email: string)
      modifies this
      ensures verifyEmail == email && screenNames == old(screenNames) && current == old(current)
    {
      verifyEmail := email;
    }
  }

  /** `MyApp`: the root, the two dialog slots, what is on screen, and the
      theme. `errorsOnScreen` and `loadersOnScreen` count the dialogs that
      are open; an error dialog can also be closed by a tap outside it,
      which leaves the slot set. */
  class MyApp {
    var root: RootManager?
    var errorDialog: Option<Dialog>
    var loaderDialog: Option<string>
    var errorsOnScreen: nat
    var loadersOnScreen: nat
    var toasts: seq<string>
    var themeStyle: string

    /** The root, when there is one, holds the nine screens; at most one
        error dialog and one loader are open, and only while their slot is
        set. */
    ghost predicate Valid()
      reads this, root
    {
      && (root != null ==> root.Valid() && root.screenNames == ScreenNames)
      && errorsOnScreen <= (if errorDialog.Some? then 1 else 0)
      && loadersOnScreen == (if loaderDialog.Some? then 1 else 0)
    }

    constructor ()
      ensures Valid() && root == null && errorDialog.None? && loaderDialog.None?
      ensures toasts == [] && themeStyle == "Light"
    {
      root := null;
      errorDialog, loaderDialog := None, None;
      errorsOnScreen, loadersOnScreen := 0, 0;
      toasts := [];
      themeStyle := "Light";
    }

    /** The part of `build` the model keeps: the theme and a fresh root. */
    method Start()
      requires Valid()
      modifies this
      ensures Valid() && fresh(root) && root.current == "login" && themeStyle == "Light"
      ensures errorDialog == old(errorDialog) && loaderDialog == old(loaderDialog) && toasts == old(toasts)
    {
      themeStyle := "Light";
      root := new RootManager.Build();
    }

    /** `_swap_root(new_root, current_name)`: the new root keeps the
        previous screen when it has it, and shows "login" otherwise. */
    method SwapRoot(newRoot: RootManager, currentName: string)
      requires Valid() && newRoot.Valid() && newRoot.screenNames == ScreenNames
      modifies this, newRoot
      ensures Valid() && root == newRoot && newRoot.screenNames == ScreenNames
      ensures newRoot.current == if currentName in ScreenNames then currentName else "login"
      ensures newRoot.current in newRoot.screenNames
      ensures errorDialog == old(errorDialog) && loaderDialog == old(loaderDialog) && toasts == old(toasts)
    {
      root := newRoot;
      if currentName in newRoot.screenNames {
        newRoot.SetCurrent(currentName);
      } else {
        newRoot.SetCurrent("login");
      }
    }

    /** What a reload does with the screen: rebuild the root and swap it in
        on the screen being shown, or on "login" when there was no root. */
    method Reload()
      requires Valid()
      modifies this, root
      ensures Valid() && root != null && fresh(root)
      ensures root.current == if old(root) != null then old(root.current) else "login"
    {
      var currentName := if root != null then root.current else "login";
      var newRoot := new RootManager.Build();
      SwapRoot(newRoot, currentName);
    }

    /** `toast`: appended to what the user has been shown. */
    method Toast(message: string)
      modifies this
      ensures toasts == old(toasts) + [message]
      ensures root == old(root) && errorDialog == old(errorDialog) && loaderDialog == old(loaderDialog)
      ensures errorsOnScreen == old(errorsOnScreen) && loadersOnScreen == old(loadersOnScreen)
      ensures themeStyle == old(themeStyle)
    {
      toasts := toasts + [message];
    }

    /** `notify_error`: an existing error dialog is dismissed and the slot
        cleared before the new one is opened, so only one is ever open. */
    method NotifyError(message: string, title: string)
      requires Valid()
      modifies this
      ensures Valid() && errorDialog == Some(Dialog(title, message)) && errorsOnScreen == 1
      ensures root == old(root) && loaderDialog == old(loaderDialog) && toasts == old(toasts)
      ensures themeStyle == old(themeStyle)
    {
      if errorDialog.Some? {
        errorsOnScreen := 0;
        errorDialog := None;
      }
      errorDialog := Some(Dialog(title, message));
      errorsOnScreen := 1;
    }

    /** A tap outside the error dialog closes it but leaves the slot set. */
    method TapOutsideError()
      requires Valid()
      modifies this
      ensures Valid() && errorsOnScreen == 0 && errorDialog == old(errorDialog)
      ensures root == old(root) && loaderDialog == old(loaderDialog) && toasts == old(toasts)
      ensures themeStyle == old(themeStyle)
    {
      errorsOnScreen := 0;
    }

    /** `_dismiss_error_dialog`: nothing to do on an empty slot. */
    method DismissErrorDialog()
      requires Valid()
      modifies this
      ensures Valid() && errorDialog.None? && errorsOnScreen == 0
      ensures old(errorDialog).None? ==> unchanged(this)
      ensures root == old(root) && loaderDialog == old(loaderDialog) && toasts == old(toasts)
    {
      if errorDialog.Some? {
        errorsOnScreen := 0;
        errorDialog := None;
      }
    }

    /** `show_loader`: an open loader only gets its label changed. */
    method ShowLoader(text: string)
      requires Valid()
      modifies this
      ensures Valid() && loaderDialog == Some(text) && loadersOnScreen == 1
      ensures root == old(root) && errorDialog == old(errorDialog) && errorsOnScreen == old(errorsOnScreen)
      ensures toasts == old(toasts) && themeStyle == old(themeStyle)
    {
      if loaderDialog.Some? {
        loaderDialog := Some(text);
        return;
      }
      loaderDialog := Some(text);
      loadersOnScreen := loadersOnScreen + 1;
    }

    /** `hide_loader`: nothing to do on an empty slot. */
    method HideLoader()
      requires Valid()
      modifies this
      ensures Valid() && loaderDialog.None? && loadersOnScreen == 0
      ensures old(loaderDialog).None? ==> unchanged(this)
      ensures root == old(root) && errorDialog == old(errorDialog) && errorsOnScreen == old(errorsOnScreen)
      ensures toasts == old(toasts) && themeStyle == old(themeStyle)
    {
      if loaderDialog.Some? {
        loadersOnScreen := 0;
        loaderDialog := None;
      }
    }

    method ToggleTheme()
      modifies this
      ensures themeStyle == Toggled(old(themeStyle))
      ensures root == old(root) && errorDialog == old(errorDialog) && loaderDialog == old(loaderDialog)
      ensures errorsOnScreen == old(errorsOnScreen) && loadersOnScreen == old(loadersOnScreen)
      ensures toasts == old(toasts)
    {
      themeStyle := if themeStyle == "Light" then "Dark" else "Light";
    }

    /** `goto`: an unknown screen, or no root at all, is reported in a
        "Navegação" dialog and the screen stays; a registered one is shown. */
    method Goto(name: string)
      requires Valid()
      modifies this, root
      ensures Valid() && root == old(root) && toasts == old(toasts) && loaderDialog == old(loaderDialog)
      ensures root != null ==> root.screenNames == old(root.screenNames) && root.verifyEmail == old(root.verifyEmail)
      ensures root != null && name in ScreenNames ==> root.current == name && errorDialog == old(errorDialog)
      ensures root != null && name !in ScreenNames ==>
        root.current == old(root.current) && errorDialog == Some(Dialog(NavigationTitle, NotFoundMessage(name, Some(ScreenNames))))
      ensures root == null ==> errorDialog == Some(Dialog(NavigationTitle, NotFoundMessage(name, None)))
    {
      if root == null || name !in root.screenNames {
        var registered := if root != null then Some(root.screenNames) else None;
        NotifyError(NotFoundMessage(name, registered), NavigationTitle);
        return;
      }
      root.SetCurrent(name);
    }
  }

  /** The screen of screens/esportes.py is never registered. */
  lemma EsportesUnregistered()
    ensures "esportes" !in ScreenNames
  {
    forall i | 0 <= i < |ScreenNames|
      ensures ScreenNames[i] != "esportes"
    {
      assert ScreenNames[i][0] != 'e' || |ScreenNames[i]| != 8;
    }
  }

  /** Navigation keeps the current screen a registered one, whatever is
      asked for. */
  method NavigationScenario() returns (shown: seq<string>)
    ensures shown == ["login", "home", "home", "dashboard", "dashboard"]
  {
    var app := new MyApp();
    app.Start();
    var root := app.root;
    var first := root.current;
    assert ScreenNames[5] == "home" && ScreenNames[6] == "dashboard";
    app.Goto("home");
    var second := root.current;
    EsportesUnregistered();
    app.Goto("esportes");
    var third := root.current;
    app.Goto("dashboard");
    var fourth := root.current;
    app.Reload();
    shown := [first, second, third, fourth, app.root.current];
  }
}
