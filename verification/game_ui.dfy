/**
 * The on-screen interface: six text widgets kept in a dictionary by name,
 * the help toggle, the info lines rewritten every frame, and the world
 * generator menu. A widget is modelled by its text and its visibility; its
 * placement, scale and colour are engine details.
 */
module GameUi {
  import opened Entries

  datatype Widget = Widget(text: string, visible: bool)

  /**
   * The names the widgets are filed under: "info_panel", "position_text",
   * "world_info", "help_text", "welcome" and "fps".
   */
  datatype WidgetKey = InfoPanelKey | PositionKey | WorldInfoKey | HelpKey | WelcomeKey | FpsKey

  /** The names of the widgets the interface creates when it starts. */
  const ElementKeys: set<WidgetKey> := {InfoPanelKey, PositionKey, WorldInfoKey, HelpKey, WelcomeKey, FpsKey}

  const HelpLines: string :=
    "Controls:\nWASD - Move\nMouse - Look\nSpace - Jump\nShift - Run\nH - Toggle Help\nR - Reload World"
  const WelcomeLines: string := "\U{1F30D} Welcome to MadMine! \U{1F30D}\nPress H for help"

  /** The widgets as set up: every one visible except the help text. */
  function InitialWidgets(): (m: map<WidgetKey, Widget>)
    ensures m.Keys == ElementKeys
    ensures forall k :: k in m ==> (m[k].visible <==> k != HelpKey)
  {
    map[InfoPanelKey := Widget("MadMine - Loading...", true),
        PositionKey := Widget("Position: (0, 0, 0)", true),
        WorldInfoKey := Widget("Blocks: 0", true),
        HelpKey := Widget(HelpLines, false),
        WelcomeKey := Widget(WelcomeLines, true),
        FpsKey := Widget("FPS: --", true)]
  }

  // ---------------------------------------------------------------------
  // The help toggle

  /** The widgets and the flag after one help toggle. */
  function HelpToggled(elements: map<WidgetKey, Widget>, helpVisible: bool): (r: (map<WidgetKey, Widget>, bool))
    requires HelpKey in elements
    ensures r.1 == !helpVisible
    ensures r.0.Keys == elements.Keys && r.0[HelpKey].visible == r.1
    ensures r.0[HelpKey].text == elements[HelpKey].text
    ensures forall k :: k in elements && k != HelpKey ==> r.0[k] == elements[k]
  {
    (elements[HelpKey := elements[HelpKey].(visible := !helpVisible)], !helpVisible)
  }

  /** Two toggles in a row give back the widgets and the flag they started from. */
  lemma HelpToggleTwice(elements: map<WidgetKey, Widget>, helpVisible: bool)
    requires HelpKey in elements && elements[HelpKey].visible == helpVisible
    ensures var once := HelpToggled(elements, helpVisible);
            HelpToggled(once.0, once.1) == (elements, helpVisible)
  {
    var once := HelpToggled(elements, helpVisible);
    var twice := HelpToggled(once.0, once.1);
    assert twice.0[HelpKey] == elements[HelpKey];
    assert twice.0 == elements;
  }

  // ---------------------------------------------------------------------
  // The player line

  const RunningMark: string := " \U{1F3C3}\U{200D}\U{2642}\U{FE0F}"
  const WalkingMark: string := " \U{1F6B6}\U{200D}\U{2642}\U{FE0F}"

  /** The mark after the position: running wins over walking, and standing still shows none. */
  function Indicator(isMoving: bool, isRunning: bool): (mark: string)
    ensures mark == RunningMark <==> isRunning
    ensures mark == WalkingMark <==> isMoving && !isRunning
    ensures mark == [] <==> !isMoving && !isRunning
  {
    if isRunning then RunningMark
    else if isMoving then WalkingMark
    else []
  }

  /**
   * The player line, for the position already formatted to one decimal
   * place per coordinate.
   */
  function PositionLine(coords: string, isMoving: bool, isRunning: bool): (line: string)
    ensures |line| >= |coords| + 12
    ensures line[..11] == "Position: (" && line[11..|coords| + 11] == coords
    ensures line[|coords| + 11..] == ")" + Indicator(isMoving, isRunning)
  {
    "Position: (" + coords + ")" + Indicator(isMoving, isRunning)
  }

  // ---------------------------------------------------------------------
  // The world line

  const BlocksLabel: string := "Blocks: "
  const SizeLabel: string := " | Size: "

  /** A value of the world summary, or 0 when it is missing. */
  function GetOrZero(data: map<string, nat>, key: string): (v: nat)
    ensures key in data ==> v == data[key]
    ensures key !in data ==> v == 0
  {
    if key in data then data[key] else 0
  }

  /** "Blocks: N | Size: SxS". */
  function WorldInfoLine(blocks: nat, size: nat): (line: string)
    ensures |line| > |BlocksLabel| + |NatToString(blocks)| + |SizeLabel|
    ensures line[..|BlocksLabel|] == BlocksLabel
    ensures line[|BlocksLabel|..|BlocksLabel| + |NatToString(blocks)|] == NatToString(blocks)
    ensures line[|BlocksLabel| + |NatToString(blocks)|..][..|SizeLabel|] == SizeLabel
  {
    BlocksLabel + NatToString(blocks) + SizeLabel + NatToString(size) + "x" + NatToString(size)
  }

  /** The number of decimal digits at the start of `s`. */
  function DigitPrefix(s: string): (k: nat)
    ensures k <= |s| && AllDigits(s[..k]) && (k == |s| || !IsDigit(s[k]))
  {
    if s == [] || !IsDigit(s[0]) then 0
    else
      var k := 1 + DigitPrefix(s[1..]);
      assert s[..k] == [s[0]] + s[1..][..k - 1];
      k
  }

  lemma {:induction false} DigitPrefixOf(d: string, rest: string)
    requires AllDigits(d) && (rest == [] || !IsDigit(rest[0]))
    ensures DigitPrefix(d + rest) == |d|
  {
    if d == [] {
      assert d + rest == rest;
    } else {
      assert (d + rest)[1..] == d[1..] + rest;
      DigitPrefixOf(d[1..], rest);
    }
  }

  /** Reads the block count and the size back from a world line. */
  function ParseWorldInfo(t: string): Option<(nat, nat)>
  {
    if |t| < |BlocksLabel| || t[..|BlocksLabel|] != BlocksLabel then None
    else ParseCounts(t[|BlocksLabel|..])
  }

  /** The rest of a world line after its "Blocks: " label. */
  function ParseCounts(r: string): Option<(nat, nat)>
  {
    var k := DigitPrefix(r);
    if k == 0 then None
    else
      match ParseSize(r[k..])
      case None => None
      case Some(size) => Some((DigitsValue(r[..k]), size))
  }

  /** The rest of a world line after the block count. */
  function ParseSize(r: string): Option<nat>
  {
    if |r| < |SizeLabel| || r[..|SizeLabel|] != SizeLabel then None
    else ParseSquare(r[|SizeLabel|..])
  }

  /** "SxS", for a decimal S. */
  function ParseSquare(r: string): Option<nat>
  {
    var k := DigitPrefix(r);
    if k == 0 || r[k..] != "x" + r[..k] then None
    else Some(DigitsValue(r[..k]))
  }

  lemma ParseSquareRoundTrip(size: nat)
    ensures ParseSquare(NatToString(size) + "x" + NatToString(size)) == Some(size)
  {
    var s := NatToString(size);
    var r := s + "x" + s;
    assert r == s + ("x" + s);
    DigitPrefixOf(s, "x" + s);
    assert r[..|s|] == s && r[|s|..] == "x" + s;
    DigitsRoundTrip(size);
  }

  lemma ParseSizeRoundTrip(size: nat)
    ensures ParseSize(SizeLabel + NatToString(size) + "x" + NatToString(size)) == Some(size)
  {
    var s := NatToString(size);
    var r := SizeLabel + s + "x" + s;
    assert r == SizeLabel + (s + "x" + s);
    assert r[|SizeLabel|..] == s + "x" + s;
    ParseSquareRoundTrip(size);
  }

  lemma ParseCountsRoundTrip(blocks: nat, size: nat)
    ensures ParseCounts(NatToString(blocks) + SizeLabel + NatToString(size) + "x" + NatToString(size)) == Some((blocks, size))
  {
    var a, s := NatToString(blocks), NatToString(size);
    var rest := SizeLabel + s + "x" + s;
    var r := a + SizeLabel + s + "x" + s;
    assert r == a + rest;
    DigitPrefixOf(a, rest);
    assert r[..|a|] == a && r[|a|..] == rest;
    ParseSizeRoundTrip(size);
    DigitsRoundTrip(blocks);
  }

  /** The world line can be read back, so different summaries show different lines. */
  lemma WorldInfoRoundTrip(blocks: nat, size: nat)
    ensures ParseWorldInfo(WorldInfoLine(blocks, size)) == Some((blocks, size))
  {
    var a, s := NatToString(blocks), NatToString(size);
    var t := WorldInfoLine(blocks, size);
    assert t == BlocksLabel + (a + SizeLabel + s + "x" + s);
    assert t[|BlocksLabel|..] == a + SizeLabel + s + "x" + s;
    ParseCountsRoundTrip(blocks, size);
  }

  lemma WorldInfoInjective(blocks: nat, size: nat, blocks': nat, size': nat)
    requires WorldInfoLine(blocks, size) == WorldInfoLine(blocks', size')
    ensures blocks == blocks' && size == size'
  {
    WorldInfoRoundTrip(blocks, size);
    WorldInfoRoundTrip(blocks', size');
  }

  /** What `get_ui_info` reports. */
  datatype UiInfo = UiInfo(helpVisible: bool, elementsCount: nat, welcomeVisible: bool)

  class GameUI {
    var uiElements: map<WidgetKey, Widget>
    var isHelpVisible: bool

    /** The six widgets are there, and the help widget shows exactly when the flag says so. */
    predicate Valid()
      reads this
    {
      uiElements.Keys == ElementKeys && uiElements[HelpKey].visible == isHelpVisible
    }

    /** The interface starts with the six widgets and the help hidden. */
    constructor()
      ensures Valid() && uiElements == InitialWidgets() && !isHelpVisible
    {
      uiElements := InitialWidgets();
      isHelpVisible := false;
    }

    method UpdatePlayerInfo(coords: string, isMoving: bool, isRunning: bool)
      requires Valid()
      modifies this
      ensures Valid() && isHelpVisible == old(isHelpVisible)
      ensures uiElements == old(uiElements)[PositionKey := old(uiElements)[PositionKey].(text := PositionLine(coords, isMoving, isRunning))]
    {
      var mark := [];
      if isRunning {
        mark := RunningMark;
      } else if isMoving {
        mark := WalkingMark;
      }
      var line := "Position: (" + coords + ")" + mark;
      uiElements := uiElements[PositionKey := uiElements[PositionKey].(text := line)];
    }

    /** Rewrites the world line from a summary; a missing value reads as 0. */
    method UpdateWorldInfo(worldData: map<string, nat>)
      requires Valid()
      modifies this
      ensures Valid() && isHelpVisible == old(isHelpVisible)
      ensures uiElements == old(uiElements)[WorldInfoKey := old(uiElements)[WorldInfoKey].(
                text := WorldInfoLine(GetOrZero(worldData, "total_blocks"), GetOrZero(worldData, "world_size")))]
    {
      var blockCount := GetOrZero(worldData, "total_blocks");
      var worldSize := GetOrZero(worldData, "world_size");
      var worldText := BlocksLabel + NatToString(blockCount) + SizeLabel + NatToString(worldSize) + "x" + NatToString(worldSize);
      uiElements := uiElements[WorldInfoKey := uiElements[WorldInfoKey].(text := worldText)];
    }

    method ToggleHelp()
      requires Valid()
      modifies this
      ensures Valid()
      ensures (uiElements, isHelpVisible) == HelpToggled(old(uiElements), old(isHelpVisible))
    {
      isHelpVisible := !isHelpVisible;
      uiElements := uiElements[HelpKey := uiElements[HelpKey].(visible := isHelpVisible)];
    }

    /** The message widget is made and left to the engine; nothing is added here. */
    method ShowMessage(message: string)
      ensures unchanged(this)
    {
    }

    method HideWelcomeMessage()
      modifies this
      ensures isHelpVisible == old(isHelpVisible)
      ensures uiElements == if WelcomeKey in old(uiElements)
                            then old(uiElements)[WelcomeKey := old(uiElements)[WelcomeKey].(visible := false)]
                            else old(uiElements)
      ensures old(Valid()) ==> Valid()
    {
      if WelcomeKey in uiElements {
        uiElements := uiElements[WelcomeKey := uiElements[WelcomeKey].(visible := false)];
      }
    }

    /** The title line becomes the game-controller mark followed by the world's name. */
    method UpdateMainTitle(worldName: string)
      requires Valid()
      modifies this
      ensures Valid() && isHelpVisible == old(isHelpVisible)
      ensures uiElements == old(uiElements)[InfoPanelKey := old(uiElements)[InfoPanelKey].(text := "\U{1F3AE} " + worldName)]
    {
      uiElements := uiElements[InfoPanelKey := uiElements[InfoPanelKey].(text := "\U{1F3AE} " + worldName)];
    }

    /** Whatever happened before, the interface reports its six widgets. */
    function GetUiInfo(): (info: UiInfo)
      requires Valid()
      reads this
      ensures info.elementsCount == 6
      ensures info.helpVisible == isHelpVisible == uiElements[HelpKey].visible
      ensures info.welcomeVisible == uiElements[WelcomeKey].visible
    {
      assert ElementKeys == {InfoPanelKey} + {PositionKey} + {WorldInfoKey} + {HelpKey} + {WelcomeKey} + {FpsKey};
      assert |{InfoPanelKey} + {PositionKey}| == 2;
      assert |{InfoPanelKey} + {PositionKey} + {WorldInfoKey}| == 3;
      assert |{InfoPanelKey} + {PositionKey} + {WorldInfoKey} + {HelpKey}| == 4;
      assert |{InfoPanelKey} + {PositionKey} + {WorldInfoKey} + {HelpKey} + {WelcomeKey}| == 5;
      UiInfo(isHelpVisible, |uiElements|, uiElements[WelcomeKey].visible)
    }
  }

  // ---------------------------------------------------------------------
  // The world generator menu

  const RandomWorldName: string := "Random World"

  /** The menu entries, in order. */
  const Generators: seq<string> := [RandomWorldName, "Flat World", "Pyramid World", "Checkerboard World"]

  class WorldGeneratorUI {
    const availableGenerators: seq<string>
    var isVisible: bool

    /** The menu starts hidden with its four entries. */
    constructor()
      ensures availableGenerators == Generators && !isVisible
    {
      availableGenerators := Generators;
      isVisible := false;
    }

    method ToggleMenu()
      modifies this
      ensures isVisible == !old(isVisible)
    {
      isVisible := !isVisible;
    }

    /** The entry at a 0-based index; any index outside the menu falls back to the random world. */
    function SelectGenerator(index: int): (name: string)
      ensures 0 <= index < |availableGenerators| ==> name == availableGenerators[index]
      ensures !(0 <= index < |availableGenerators|) ==> name == RandomWorldName
    {
      if 0 <= index < |availableGenerators| then availableGenerators[index] else RandomWorldName
    }
  }

  /**
   * With the menu as set up, every index selects one of the menu's entries,
   * and the random world is chosen exactly by index 0 and by the indexes
   * outside the menu.
   */
  lemma SelectionIsListed(ui: WorldGeneratorUI, index: int)
    requires ui.availableGenerators == Generators
    ensures ui.SelectGenerator(index) in Generators
    ensures ui.SelectGenerator(index) == RandomWorldName <==> index == 0 || index < 0 || index >= 4
  {
    if 0 < index < 4 {
      assert Generators[index] != RandomWorldName;
    }
  }
}
