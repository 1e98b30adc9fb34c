/** The sport selection of screens/sports.py and the checkbox rows of
    components/checkbox_item.py: entering the screen refills the
    `lista_esportes` container with the 28 sports, all unticked; confirming
    needs at least three ticked rows and then goes to "home". */
module Sports {
  import opened Text
  import opened AppShell

  /** The sports in the order the screen lists them. */
  const SportNames: seq<string> := [
    "Futebol", "Vôlei", "Basquete", "Tênis", "Natação", "Corrida", "Caminhada",
    "Skate", "BMX", "Badminton", "Jiu-Jitsu", "Judô", "Karatê", "Boxe",
    "Muay Thai", "Yoga", "Pilates", "Crossfit", "Ciclismo", "Surf", "Escalada",
    "Rugby", "Beisebol", "Handebol", "Tênis de mesa", "Golfe", "Hóquei", "Esgrima"]

  const MinSelection: nat := 3
  const MissingContainer := "Erro: container 'lista_esportes' não encontrado."
  const SelectPrompt := "Selecione pelo menos 3 esportes"
  const TooFew := "Escolha pelo menos 3 esportes"
  const SelectedPrefix := "Selecionados: "

  /** `MDCheckboxItem`: a label and whether its checkbox is ticked. */
  class CheckboxItem {
    var text: string
    var active: bool

    constructor (text: string)
      ensures this.text == text && !active
    {
      this.text := text;
      active := false;
    }

    /** `on_active`: the row follows its checkbox. */
    method OnActive(value: bool)
      modifies this
      ensures active == value && text == old(text)
    {
      active := value;
    }
  }

  /** The `lista_esportes` layout. Kivy's `add_widget` puts the new child
      at the front of `children`, so the rows shown top to bottom are
      `children` read from the back. */
  class Container {
    var children: seq<CheckboxItem>

    constructor ()
      ensures children == []
    {
      children := [];
    }

    method ClearWidgets()
      modifies this
      ensures children == []
    {
      children := [];
    }

    method AddWidget(item: CheckboxItem)
      modifies this
      ensures children == [item] + old(children)
    {
      children := [item] + children;
    }
  }

  /** The texts of the ticked rows, in `children` order. */
  function ActiveTexts(items: seq<CheckboxItem>): (r: seq<string>)
    reads items
    ensures |r| <= |items|
  {
    if items == [] then []
    else (if items[0].active then [items[0].text] else []) + ActiveTexts(items[1..])
  }

  /** The selection of a list is the selection of its parts, one after the
      other. */
  lemma {:induction false} ActiveTextsAppend(a: seq<CheckboxItem>, b: seq<CheckboxItem>)
    ensures ActiveTexts(a + b) == ActiveTexts(a) + ActiveTexts(b)
    decreases |a|
  {
    if a != [] {
      var head := if a[0].active then [a[0].text] else [];
      assert (a + b)[0] == a[0] && (a + b)[1..] == a[1..] + b;
      assert ActiveTexts(a + b) == head + ActiveTexts(a[1..] + b);
      ActiveTextsAppend(a[1..], b);
      assert ActiveTexts(a) == head + ActiveTexts(a[1..]);
    } else {
      assert a + b == b;
    }
  }

  /** Nothing ticked, nothing selected. */
  lemma {:induction false} NoneTickedSelectsNothing(items: seq<CheckboxItem>)
    requires forall i | 0 <= i < |items| :: !items[i].active
    ensures ActiveTexts(items) == []
    decreases |items|
  {
    if items != [] {
      assert forall i | 0 <= i < |items[1..]| :: items[1..][i] == items[i + 1];
      NoneTickedSelectsNothing(items[1..]);
    }
  }

  /** Every selected text is the text of a ticked row. */
  lemma {:induction false} ActiveTextsAreTicked(items: seq<CheckboxItem>, k: nat)
    requires k < |ActiveTexts(items)|
    ensures exists i | 0 <= i < |items| :: items[i].active && items[i].text == ActiveTexts(items)[k]
    decreases |items|
  {
    var rest := ActiveTexts(items[1..]);
    if items[0].active && k == 0 {
      assert items[0].active && items[0].text == ActiveTexts(items)[k];
    } else {
      var k' := if items[0].active then k - 1 else k;
      ActiveTextsAreTicked(items[1..], k');
      var i :| 0 <= i < |items[1..]| && items[1..][i].active && items[1..][i].text == rest[k'];
      assert items[i + 1].active && items[i + 1].text == ActiveTexts(items)[k];
    }
  }

  /** With exactly the first three rows ticked, the selection is their
      three texts. */
  lemma FirstThreeSelected(rows: seq<CheckboxItem>)
    requires |rows| >= 3 && rows[0].active && rows[1].active && rows[2].active
    requires forall k | 3 <= k < |rows| :: !rows[k].active
    ensures ActiveTexts(rows) == [rows[0].text, rows[1].text, rows[2].text]
  {
    assert rows[..3] + rows[3..] == rows;
    ActiveTextsAppend(rows[..3], rows[3..]);
    assert forall k | 0 <= k < |rows[3..]| :: rows[3..][k] == rows[k + 3];
    NoneTickedSelectsNothing(rows[3..]);
    var top := rows[..3];
    assert top[2..][1..] == [] && top[2..][0] == rows[2];
    assert ActiveTexts(top[2..]) == [rows[2].text];
    assert top[1..][1..] == top[2..] && top[1..][0] == rows[1];
    assert ActiveTexts(top[1..]) == [rows[1].text, rows[2].text];
    assert top[0] == rows[0];
  }

  /** The refill of `on_pre_enter`: the container is cleared and gets one
      new unticked row per name, each added at the front. */
  method Populate(c: Container, names: seq<string>)
    modifies c
    ensures |c.children| == |names|
    ensures forall k | 0 <= k < |names| ::
      && fresh(c.children[k]) && !c.children[k].active
      && c.children[k].text == names[|names| - 1 - k]
    ensures forall k, l | 0 <= k < l < |names| :: c.children[k] != c.children[l]
  {
    c.ClearWidgets();
    for i := 0 to |names|
      invariant |c.children| == i
      invariant forall k | 0 <= k < i ::
        && fresh(c.children[k]) && !c.children[k].active
        && c.children[k].text == names[i - 1 - k]
      invariant forall k, l | 0 <= k < l < i :: c.children[k] != c.children[l]
    {
      var item := new CheckboxItem(names[i]);
      c.AddWidget(item);
    }
  }

  /** `ChooseSportsScreen`, with its `lista_esportes` id; `null` when the
      layout has no such container. */
  class ChooseSportsScreen {
    const lista: Container?

    constructor (lista: Container?)
      ensures this.lista == lista
    {
      this.lista := lista;
    }

    /** `on_pre_enter`: without the container only a toast; with it, the
        container holds exactly one new unticked row per sport, shown in
        the listed order. The prompt is queued with `Clock.schedule_once`
        and is shown right after. */
    method OnPreEnter(app: MyApp)
      modifies app, lista
      ensures app.root == old(app.root) && app.errorDialog == old(app.errorDialog)
      ensures app.loaderDialog == old(app.loaderDialog)
      ensures app.errorsOnScreen == old(app.errorsOnScreen) && app.loadersOnScreen == old(app.loadersOnScreen)
      ensures lista == null ==> app.toasts == old(app.toasts) + [MissingContainer]
      ensures lista != null ==>
        && app.toasts == old(app.toasts) + [SelectPrompt]
        && |lista.children| == |SportNames|
        && (forall k | 0 <= k < |lista.children| ::
              && fresh(lista.children[k]) && !lista.children[k].active
              && lista.children[k].text == SportNames[|SportNames| - 1 - k])
        && (forall k, l | 0 <= k < l < |lista.children| :: lista.children[k] != lista.children[l])
    {
      if lista == null {
        app.Toast(MissingContainer);
        return;
      }
      Populate(lista, SportNames);
      app.Toast(SelectPrompt);
    }

    /** The loop of `confirmar_escolhas` that collects the ticked texts. */
    method Selected() returns (sel: seq<string>)
      requires lista != null
      ensures sel == ActiveTexts(lista.children)
    {
      var children := lista.children;
      sel := [];
      for i := 0 to |children|
        invariant sel == ActiveTexts(children[..i])
      {
        ActiveTextsAppend(children[..i], [children[i]]);
        assert children[..i + 1] == children[..i] + [children[i]];
        if children[i].active {
          sel := sel + [children[i].text];
        }
      }
      assert children[..|children|] == children;
    }

    /** `confirmar_escolhas`: at least three ticked rows lists them and
        goes to "home"; otherwise only a toast. */
    method ConfirmarEscolhas(app: MyApp)
      requires app.Valid() && app.root != null
      modifies app, app.root
      ensures app.Valid() && app.root == old(app.root) && app.root.verifyEmail == old(app.root.verifyEmail)
      ensures app.errorDialog == old(app.errorDialog) && app.loaderDialog == old(app.loaderDialog)
      ensures lista == null ==>
        app.toasts == old(app.toasts) + [MissingContainer] && app.root.current == old(app.root.current)
      ensures lista != null && |old(ActiveTexts(lista.children))| < MinSelection ==>
        app.toasts == old(app.toasts) + [TooFew] && app.root.current == old(app.root.current)
      ensures lista != null && |old(ActiveTexts(lista.children))| >= MinSelection ==>
        app.toasts == old(app.toasts) + [SelectedPrefix + Join(old(ActiveTexts(lista.children)), ", ")]
        && app.root.current == "home"
    {
      if lista == null {
        app.Toast(MissingContainer);
        return;
      }
      var sel := Selected();
      if |sel| < MinSelection {
        app.Toast(TooFew);
      } else {
        app.Toast(SelectedPrefix + Join(sel, ", "));
        app.root.SetCurrent("home");
      }
    }
  }

  /** The user ticks row `k`; the other rows keep their state, since no
      row appears twice. */
  method Tick(rows: seq<CheckboxItem>, k: nat)
    requires k < |rows| && forall i, j | 0 <= i < j < |rows| :: rows[i] != rows[j]
    modifies rows[k]
    ensures rows[k].active
    ensures forall i | 0 <= i < |rows| && i != k :: rows[i].active == old(rows[i].active)
    ensures forall i | 0 <= i < |rows| :: rows[i].text == old(rows[i].text)
  {
    rows[k].OnActive(true);
  }

  lemma JoinThree(a: string, b: string, c: string, sep: string)
    ensures Join([a, b, c], sep) == a + sep + b + sep + c
  {
    assert [a, b, c][1..] == [b, c] && [b, c][1..] == [c];
  }

  lemma BottomThreeJoined()
    ensures Join(["Esgrima", "Hóquei", "Golfe"], ", ") == "Esgrima, Hóquei, Golfe"
  {
    JoinThree("Esgrima", "Hóquei", "Golfe", ", ");
  }

  /** Right after entering the screen nothing is ticked, so confirming
      stays on the screen. */
  method NothingTickedScenario() returns (said: string, shown: string)
    ensures said == TooFew && shown == "choose_sports"
  {
    var app := new MyApp();
    app.Start();
    var root := app.root;
    root.SetCurrent("choose_sports");
    var lista := new Container();
    var screen := new ChooseSportsScreen(lista);
    screen.OnPreEnter(app);
    said := ConfirmUnticked(app, screen);
    shown := root.current;
  }

  /** Confirming a list where nothing is ticked only says that too few
      were chosen. */
  method ConfirmUnticked(app: MyApp, screen: ChooseSportsScreen) returns (said: string)
    requires app.Valid() && app.root != null && screen.lista != null
    requires forall k | 0 <= k < |screen.lista.children| :: !screen.lista.children[k].active
    modifies app, app.root
    ensures app.root == old(app.root) && app.root.current == old(app.root.current)
    ensures said == TooFew
  {
    NoneTickedSelectsNothing(screen.lista.children);
    screen.ConfirmarEscolhas(app);
    said := app.toasts[|app.toasts| - 1];
  }

  /** Ticking the three bottom rows of a list where nothing else is
      ticked, then confirming, lists those three in `children` order and
      goes to "home". */
  method TickBottomThreeAndConfirm(app: MyApp, screen: ChooseSportsScreen) returns (said: string)
    requires app.Valid() && app.root != null && screen.lista != null
    requires |screen.lista.children| >= 3
    requires forall i, j | 0 <= i < j < |screen.lista.children| :: screen.lista.children[i] != screen.lista.children[j]
    requires forall k | 3 <= k < |screen.lista.children| :: !screen.lista.children[k].active
    modifies app, app.root, screen.lista.children[0], screen.lista.children[1], screen.lista.children[2]
    ensures app.root == old(app.root) && app.root.current == "home"
    ensures said == SelectedPrefix + Join(old([screen.lista.children[0].text, screen.lista.children[1].text,
                                              screen.lista.children[2].text]), ", ")
  {
    var rows := screen.lista.children;
    Tick(rows, 0);
    Tick(rows, 1);
    Tick(rows, 2);
    FirstThreeSelected(rows);
    screen.ConfirmarEscolhas(app);
    said := app.toasts[|app.toasts| - 1];
  }

  /** Ticking the bottom three rows of the refilled list is enough; they
      are listed from the bottom up. */
  method PickThreeScenario() returns (said: string, shown: string)
    ensures said == SelectedPrefix + "Esgrima, Hóquei, Golfe"
    ensures shown == "home"
  {
    var app := new MyApp();
    app.Start();
    var root := app.root;
    root.SetCurrent("choose_sports");
    var lista := new Container();
    var screen := new ChooseSportsScreen(lista);
    screen.OnPreEnter(app);
    var rows := lista.children;
    assert |SportNames| == 28 && SportNames[25] == "Golfe" && SportNames[26] == "Hóquei" && SportNames[27] == "Esgrima";
    assert [rows[0].text, rows[1].text, rows[2].text] == ["Esgrima", "Hóquei", "Golfe"];
    said := TickBottomThreeAndConfirm(app, screen);
    BottomThreeJoined();
    shown := root.current;
  }
}
