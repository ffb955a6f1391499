/**
 * The game object that ties the pieces together: the world builder, the
 * interface, the generator menu and the camera, the reload of a world by
 * name, and the keyboard dispatch.
 *
 * The observable state is summed up by a `Snapshot`; `Dispatch` says what
 * one key press does to it, and the methods of `MadMineGame` are proved to
 * do exactly that.
 */
module MadMine {
  import opened Entries
  import opened World
  import BuiltinWorlds
  import opened GameUi
  import PlayerController

  /** The producer a reload runs, as picked from the name. */
  datatype WorldKind = Flat | Pyramid | Checkerboard | DefaultFlat

  /**
   * The three named worlds; every other name, "random" and a missing name
   * included, falls back to the flat world.
   */
  function KindOf(name: Option<string>): (kind: WorldKind)
    ensures kind == Flat <==> name == Some("flat")
    ensures kind == Pyramid <==> name == Some("pyramid")
    ensures kind == Checkerboard <==> name == Some("checkerboard")
  {
    if name == Some("flat") then Flat
    else if name == Some("pyramid") then Pyramid
    else if name == Some("checkerboard") then Checkerboard
    else DefaultFlat
  }

  /** The entries the producer of a kind returns; the fallback runs the flat world's producer. */
  function Producer(kind: WorldKind): (es: seq<Entry>)
    ensures kind == Flat || kind == DefaultFlat ==> es == BuiltinWorlds.FlatWorldSpec()
    ensures kind == Pyramid ==> es == BuiltinWorlds.PyramidWorldSpec()
    ensures kind == Checkerboard ==> es == BuiltinWorlds.CheckerboardWorldSpec()
  {
    match kind
    case Flat => BuiltinWorlds.FlatWorldSpec()
    case Pyramid => BuiltinWorlds.PyramidWorldSpec()
    case Checkerboard => BuiltinWorlds.CheckerboardWorldSpec()
    case DefaultFlat => BuiltinWorlds.FlatWorldSpec()
  }

  /** The title shown for a kind; the fallback is marked as the default. */
  function Title(kind: WorldKind): (title: string)
    ensures title == "Flat World (Default)" <==> kind == DefaultFlat
    ensures kind == Flat ==> title == "Flat World"
    ensures kind == Pyramid ==> title == "Pyramid World"
    ensures kind == Checkerboard ==> title == "Checkerboard World"
  {
    match kind
    case Flat => "Flat World"
    case Pyramid => "Pyramid World"
    case Checkerboard => "Checkerboard World"
    case DefaultFlat => "Flat World (Default)"
  }

  /** Only the three names pick their own world; the fallback runs the flat producer. */
  lemma KindOfNames(name: Option<string>)
    ensures KindOf(Some("flat")) == Flat && KindOf(Some("pyramid")) == Pyramid && KindOf(Some("checkerboard")) == Checkerboard
    ensures KindOf(name) == DefaultFlat <==> name !in {Some("flat"), Some("pyramid"), Some("checkerboard")}
    ensures KindOf(name) != Pyramid && KindOf(name) != Checkerboard ==> Producer(KindOf(name)) == BuiltinWorlds.FlatWorldSpec()
    ensures KindOf(Some("random")) == KindOf(None) == KindOf(Some("")) == DefaultFlat
  {
  }

  /** The name remembered after a reload: a missing or empty name is remembered as "random". */
  function RememberedName(name: Option<string>): (n: string)
    ensures n != []
    ensures name.Some? && name.value != [] ==> n == name.value
    ensures name.None? || name.value == [] ==> n == "random"
  {
    if name.None? || name.value == [] then "random" else name.value
  }

  /** Whatever the kind, its producer builds without an exception. */
  lemma ReloadNeverRaises(kind: WorldKind)
    ensures Build(Producer(kind)).error.None?
    ensures |Build(Producer(kind)).blocks| == match kind
      case Pyramid => 55
      case Checkerboard => 64
      case _ => 100
  {
    match kind
    case Pyramid => BuiltinWorlds.PyramidWorldBuilds();
    case Checkerboard => BuiltinWorlds.CheckerboardWorldBuilds();
    case _ => BuiltinWorlds.FlatWorldBuilds();
  }

  /** What the player can observe of the game. */
  datatype Snapshot = Snapshot(
    blocks: seq<Block>,
    widgets: map<WidgetKey, Widget>,
    helpVisible: bool,
    menuVisible: bool,
    currentWorld: Option<string>)

  /** The interface holds its six widgets and the help widget agrees with the help flag. */
  predicate Consistent(s: Snapshot)
  {
    s.widgets.Keys == ElementKeys && s.widgets[HelpKey].visible == s.helpVisible
  }

  /** How a key press ends. Reloading before any world was loaded fails: no current world is recorded. */
  datatype KeyResult = Handled | QuitRequested | MissingCurrentWorld

  /** The title shown while a world is loaded. */
  function TitleLine(title: string): string
  {
    "\U{1F3AE} " + title
  }

  /** The registry after a reload: the blocks built from the producer's entries. */
  function LoadedBlocks(kind: WorldKind): seq<Block>
  {
    Generation(Returned(Producer(kind))).blocks
  }

  /** The widgets after a reload: the title names the world and the welcome message is hidden. */
  function ReloadedWidgets(w: map<WidgetKey, Widget>, title: string): (r: map<WidgetKey, Widget>)
    requires InfoPanelKey in w && WelcomeKey in w
    ensures r.Keys == w.Keys
    ensures r[InfoPanelKey] == w[InfoPanelKey].(text := TitleLine(title))
    ensures r[WelcomeKey] == w[WelcomeKey].(visible := false)
    ensures forall k :: k in w && k != InfoPanelKey && k != WelcomeKey ==> r[k] == w[k]
  {
    var titled := w[InfoPanelKey := w[InfoPanelKey].(text := TitleLine(title))];
    titled[WelcomeKey := titled[WelcomeKey].(visible := false)]
  }

  /** A second reload of the same world leaves the widgets as the first one did. */
  lemma ReloadedWidgetsTwice(w: map<WidgetKey, Widget>, title: string)
    requires InfoPanelKey in w && WelcomeKey in w
    ensures ReloadedWidgets(ReloadedWidgets(w, title), title) == ReloadedWidgets(w, title)
  {
    var once := ReloadedWidgets(w, title);
    var twice := ReloadedWidgets(once, title);
    assert forall k :: k in twice ==> twice[k] == once[k];
  }

  /** The state after reloading the world `name`. */
  function Reloaded(s: Snapshot, name: Option<string>): (t: Snapshot)
    requires Consistent(s)
    ensures Consistent(t)
    ensures t.blocks == LoadedBlocks(KindOf(name))
    ensures t.widgets[InfoPanelKey].text == TitleLine(Title(KindOf(name)))
    ensures !t.widgets[WelcomeKey].visible
    ensures t.helpVisible == s.helpVisible && t.menuVisible == s.menuVisible
    ensures t.currentWorld == Some(RememberedName(name))
  {
    var kind := KindOf(name);
    Snapshot(LoadedBlocks(kind), ReloadedWidgets(s.widgets, Title(kind)), s.helpVisible, s.menuVisible, Some(RememberedName(name)))
  }

  /** A state with the reloaded parts in place is the reloaded state. */
  lemma ReloadedFrom(s: Snapshot, name: Option<string>, t: Snapshot)
    requires Consistent(s)
    requires t.blocks == LoadedBlocks(KindOf(name))
    requires t.widgets == ReloadedWidgets(s.widgets, Title(KindOf(name)))
    requires t.helpVisible == s.helpVisible && t.menuVisible == s.menuVisible
    requires t.currentWorld == Some(RememberedName(name))
    ensures t == Reloaded(s, name)
  {
  }

  /** What one key press does. */
  function Dispatch(s: Snapshot, key: string): (r: (Snapshot, KeyResult))
    requires Consistent(s)
    ensures Consistent(r.0)
    ensures r.1 == MissingCurrentWorld <==> key == "r" && s.currentWorld.None?
    ensures r.1 == QuitRequested <==> key == "escape"
    ensures r.1 != Handled ==> r.0 == s
  {
    if key == "h" then
      var toggled := HelpToggled(s.widgets, s.helpVisible);
      (s.(widgets := toggled.0, helpVisible := toggled.1), Handled)
    else if key == "r" then
      if s.currentWorld.None? then (s, MissingCurrentWorld)
      else (Reloaded(s, s.currentWorld), Handled)
    else if key == "1" then (Reloaded(s, Some("flat")), Handled)
    else if key == "2" then (Reloaded(s, Some("pyramid")), Handled)
    else if key == "3" then (Reloaded(s, Some("checkerboard")), Handled)
    else if key == "4" then (Reloaded(s, Some("random")), Handled)
    else if key == "g" then (s.(menuVisible := !s.menuVisible), Handled)
    else if key == "escape" then (s, QuitRequested)
    else (s, Handled)
  }

  /** The keys the game reacts to. */
  const BoundKeys: set<string> := {"h", "r", "1", "2", "3", "4", "g", "escape"}

  /** Any other key leaves the game exactly as it was. */
  lemma OtherKeysIgnored(s: Snapshot, key: string)
    requires Consistent(s) && key !in BoundKeys
    ensures Dispatch(s, key) == (s, Handled)
  {
  }

  /** Pressing "h" twice shows the same help as before. */
  lemma HelpKeyTwice(s: Snapshot)
    requires Consistent(s)
    ensures Dispatch(Dispatch(s, "h").0, "h") == (s, Handled)
  {
    HelpToggleTwice(s.widgets, s.helpVisible);
  }

  /** "h" changes the help flag and the help widget and nothing else. */
  lemma HelpKeyOnly(s: Snapshot)
    requires Consistent(s)
    ensures Dispatch(s, "h").1 == Handled
    ensures Dispatch(s, "h").0.helpVisible == !s.helpVisible
    ensures Dispatch(s, "h").0.widgets == HelpToggled(s.widgets, s.helpVisible).0
    ensures Dispatch(s, "h").0.blocks == s.blocks
    ensures Dispatch(s, "h").0.menuVisible == s.menuVisible
    ensures Dispatch(s, "h").0.currentWorld == s.currentWorld
  {
  }

  /** "g" flips the menu flag and nothing else. */
  lemma MenuKeyOnly(s: Snapshot)
    requires Consistent(s)
    ensures Dispatch(s, "g") == (s.(menuVisible := !s.menuVisible), Handled)
  {
  }

  /** Pressing "g" twice leaves the menu as it was. */
  lemma MenuKeyTwice(s: Snapshot)
    requires Consistent(s)
    ensures Dispatch(Dispatch(s, "g").0, "g") == (s, Handled)
  {
  }

  /**
   * "4" asks for the random world, which has no producer of its own: it
   * loads the same blocks as "1", under the default title, and remembers
   * "random".
   */
  lemma RandomKeyLoadsFlat(s: Snapshot)
    requires Consistent(s)
    ensures Dispatch(s, "4").0.blocks == Dispatch(s, "1").0.blocks == Build(BuiltinWorlds.FlatWorldSpec()).blocks
    ensures Dispatch(s, "4").0.widgets[InfoPanelKey].text == TitleLine("Flat World (Default)")
    ensures Dispatch(s, "1").0.widgets[InfoPanelKey].text == TitleLine("Flat World")
    ensures Dispatch(s, "4").0.currentWorld == Some("random")
  {
    KindOfNames(Some("random"));
  }

  /** A loading key: each reloads one named world. */
  function KeyWorld(key: string): (name: string)
    requires key in {"1", "2", "3", "4"}
    ensures name in {"flat", "pyramid", "checkerboard", "random"}
    ensures key == "1" ==> name == "flat"
    ensures key == "2" ==> name == "pyramid"
    ensures key == "3" ==> name == "checkerboard"
    ensures key == "4" ==> name == "random"
  {
    if key == "1" then "flat" else if key == "2" then "pyramid" else if key == "3" then "checkerboard" else "random"
  }

  /** The remembered name picks the same world as the name it came from. */
  lemma RememberedChoosesSame(name: Option<string>)
    ensures KindOf(Some(RememberedName(name))) == KindOf(name)
  {
    if name.None? || name.value == [] {
      assert RememberedName(name) == "random";
    }
  }

  /** Reloading the remembered world right after a reload changes nothing. */
  lemma ReloadIdempotent(s: Snapshot, name: Option<string>)
    requires Consistent(s)
    ensures var t := Reloaded(s, name); Reloaded(t, t.currentWorld) == t
  {
    var t := Reloaded(s, name);
    RememberedChoosesSame(name);
    ReloadedWidgetsTwice(s.widgets, Title(KindOf(name)));
  }

  /** A loading key reloads its world. */
  lemma DispatchLoads(s: Snapshot, key: string)
    requires Consistent(s) && key in {"1", "2", "3", "4"}
    ensures Dispatch(s, key) == (Reloaded(s, Some(KeyWorld(key))), Handled)
  {
  }

  /** "r" reloads the current world once there is one. */
  lemma DispatchReload(s: Snapshot)
    requires Consistent(s) && s.currentWorld.Some?
    ensures Dispatch(s, "r") == (Reloaded(s, s.currentWorld), Handled)
  {
  }

  /** After a loading key, "r" reloads the same world and changes nothing more. */
  lemma ReloadRepeats(s: Snapshot, key: string)
    requires Consistent(s) && key in {"1", "2", "3", "4"}
    ensures Dispatch(s, key).0 == Reloaded(s, Some(KeyWorld(key)))
    ensures Dispatch(Dispatch(s, key).0, "r") == (Dispatch(s, key).0, Handled)
  {
    DispatchLoads(s, key);
    var t := Reloaded(s, Some(KeyWorld(key)));
    DispatchReload(t);
    ReloadIdempotent(s, Some(KeyWorld(key)));
  }

  /** Every reload leaves the welcome message hidden and the help as it was, and never fails. */
  lemma LoadingKeysHideWelcome(s: Snapshot, key: string)
    requires Consistent(s) && key in {"1", "2", "3", "4"}
    ensures !Dispatch(s, key).0.widgets[WelcomeKey].visible
    ensures Dispatch(s, key).0.helpVisible == s.helpVisible
    ensures Dispatch(s, key).1 == Handled
    ensures Build(Producer(KindOf(Some(KeyWorld(key))))).error.None?
  {
    DispatchLoads(s, key);
    ReloadNeverRaises(KindOf(Some(KeyWorld(key))));
  }

  class MadMineGame {
    const worldGenerator: WorldGenerator
    const gameUi: GameUI
    const worldUi: WorldGeneratorUI
    const cameraController: PlayerController.CameraController
    /** Unset until the first reload. */
    var currentWorld: Option<string>

    predicate Valid()
      reads this, gameUi
    {
      gameUi.Valid() && worldUi.availableGenerators == Generators
    }

    function State(): Snapshot
      reads this, worldGenerator, gameUi, worldUi
    {
      Snapshot(worldGenerator.blocks, gameUi.uiElements, gameUi.isHelpVisible, worldUi.isVisible, currentWorld)
    }

    /**
     * The game starts with an empty registry (the ground it shows is made
     * of engine cubes created directly), the interface as set up, the menu
     * closed, the camera in first-person mode and no current world.
     */
    constructor()
      ensures Valid() && Consistent(State())
      ensures State() == Snapshot([], InitialWidgets(), false, false, None)
      ensures cameraController.cameraMode == PlayerController.FirstPersonMode
      ensures fresh(worldGenerator) && fresh(gameUi) && fresh(worldUi)
    {
      worldGenerator := new WorldGenerator();
      gameUi := new GameUI();
      worldUi := new WorldGeneratorUI();
      cameraController := new PlayerController.CameraController();
      currentWorld := None;
    }

    /** Picks the producer by name and runs it; returns its entries and the world's title. */
    static method RunChosen(name: Option<string>) returns (entries: seq<Entry>, worldName: string)
      ensures entries == Producer(KindOf(name)) && worldName == Title(KindOf(name))
    {
      match KindOf(name)
      case Flat =>
        entries := BuiltinWorlds.FlatWorld();
        worldName := "Flat World";
      case Pyramid =>
        entries := BuiltinWorlds.PyramidWorld();
        worldName := "Pyramid World";
      case Checkerboard =>
        entries := BuiltinWorlds.CheckerboardWorld();
        worldName := "Checkerboard World";
      case DefaultFlat =>
        entries := BuiltinWorlds.FlatWorld();
        worldName := "Flat World (Default)";
    }

    /** Runs the builder on the chosen producer's entries. */
    static method Regenerate(g: WorldGenerator, ghost kind: WorldKind, entries: seq<Entry>)
      requires entries == Producer(kind)
      modifies g
      ensures g.blocks == LoadedBlocks(kind)
    {
      var _ := g.GenerateWorld(Some(Returned(entries)), []);
    }

    /** The world part of a reload: choose, run and build; returns the title to show. */
    static method LoadChosen(g: WorldGenerator, name: Option<string>) returns (worldName: string)
      modifies g
      ensures g.blocks == LoadedBlocks(KindOf(name)) && worldName == Title(KindOf(name))
    {
      var entries;
      entries, worldName := RunChosen(name);
      Regenerate(g, KindOf(name), entries);
    }

    /** The interface part of a reload: the title, the message, and the welcome message hidden. */
    static method ShowLoaded(ui: GameUI, worldName: string)
      requires ui.Valid()
      modifies ui
      ensures ui.Valid() && ui.isHelpVisible == old(ui.isHelpVisible)
      ensures ui.uiElements == ReloadedWidgets(old(ui.uiElements), worldName)
    {
      ui.UpdateMainTitle(worldName);
      ui.ShowMessage("\U{1F30D} " + worldName + " loaded!");
      ui.HideWelcomeMessage();
    }

    method ReloadWorld(name: Option<string>)
      requires Valid()
      modifies this, worldGenerator, gameUi
      ensures Valid()
      ensures State() == Reloaded(old(State()), name)
    {
      var worldName := LoadChosen(worldGenerator, name);
      ShowLoaded(gameUi, worldName);
      currentWorld := Some(if name.None? || name.value == "" then "random" else name.value);
      ReloadedFrom(old(State()), name, State());
    }

    /** One key press; quitting is left to the engine. */
    method Input(key: string) returns (result: KeyResult)
      requires Valid()
      modifies this, worldGenerator, gameUi, worldUi
      ensures Valid()
      ensures (State(), result) == Dispatch(old(State()), key)
    {
      result := Handled;
      if key == "h" {
        gameUi.ToggleHelp();
      } else if key == "r" {
        if currentWorld.None? {
          result := MissingCurrentWorld;
        } else {
          ReloadWorld(currentWorld);
        }
      } else if key == "1" {
        ReloadWorld(Some("flat"));
      } else if key == "2" {
        ReloadWorld(Some("pyramid"));
      } else if key == "3" {
        ReloadWorld(Some("checkerboard"));
      } else if key == "4" {
        ReloadWorld(Some("random"));
      } else if key == "g" {
        worldUi.ToggleMenu();
      } else if key == "escape" {
        result := QuitRequested;
      }
    }
  }
}
