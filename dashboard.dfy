// The coach dashboard screen: the per-client agent configuration that the
// screen keeps in memory, the view and selection state, and the integer
// arithmetic that lays the client cards out in a grid.

module Dashboard {
  import opened Wrappers

  /** A configuration entry is either a switch or a piece of text. */
  datatype ConfigValue = Flag(on: bool) | Text(text: string)

  /** A client configuration maps each setting's name to its value. */
  type ClientConfig = map<string, ConfigValue>

  predicate SameKind(a: ConfigValue, b: ConfigValue) {
    a.Flag? == b.Flag?
  }

  /** The configuration every client starts from. */
  const DefaultConfig: ClientConfig := map[
    "intakeEnabled" := Flag(true),
    "reqGoals" := Flag(true),
    "reqInjuries" := Flag(true),
    "reqHistory" := Flag(true),
    "reqEquip" := Flag(true),
    "customQuestions" := Text(""),
    "strictMode" := Flag(true),
    "redFlagKeywords" := Text("chest pain, sharp pain, dizziness, fainting, broken bone, surgery, pregnant"),
    "medicalDisclaimer" := Text("I am an AI fitness assistant, not a doctor. Please consult with a healthcare professional regarding this symptom."),
    "tone" := Text("Encouraging but firm"),
    "communicationStyle" := Text("Concise, uses emojis sparingly"),
    "fallbackEquipment" := Text("No worries! Let's swap that for a bodyweight alternative. Try doing..."),
    "fallbackMissedWorkout" := Text("Life happens. Let's adjust the schedule. Can you do a shorter session tomorrow?"),
    "morningCheckIn" := Flag(true),
    "morningTime" := Text("07:00"),
    "morningSleep" := Flag(true),
    "morningSoreness" := Flag(true),
    "morningMood" := Flag(true),
    "eveningRecap" := Flag(true),
    "eveningTime" := Text("20:00"),
    "reflectionQuestions" := Text("What went well today? What was challenging?"),
    "stepCount" := Flag(true),
    "hydration" := Flag(false),
    "proteinTarget" := Flag(true),
    "sleepHours" := Flag(true),
    "nudgeFrequency" := Text("low"),
    "photoLogging" := Flag(true),
    "trackingPhilosophy" := Text("macro"),
    "feedbackStyle" := Text("Focus on protein intake first. Be gentle about occasional treats but firm on total daily calories."),
    "splitPreference" := Text("Upper/Lower Split"),
    "progressionModel" := Text("Linear Progression + RPE"),
    "videoFormAnalysis" := Flag(true),
    "keyMovements" := Text("Squat depth, Neutral spine in deadlift, Elbow flare in bench press"),
    "injuryAutoAdjustment" := Flag(true),
    "factCheck" := Flag(true),
    "trustedSources" := Text("PubMed, Examine.com, ISSN Position Papers, Renaissance Periodization"),
    "educationWeek1" := Flag(true),
    "educationWeek3" := Flag(true),
    "educationWeek5" := Flag(true)
  ]

  /** A name of a setting, with a value of the kind that setting takes. */
  predicate FitsSetting(key: string, value: ConfigValue) {
    key in DefaultConfig && SameKind(value, DefaultConfig[key])
  }

  /** The names of the switches: the only settings a toggle may change. */
  predicate IsToggleKey(key: string) {
    key in DefaultConfig && DefaultConfig[key].Flag?
  }

  /** A configuration with exactly the default's settings, each of the right kind. */
  predicate WellTyped(config: ClientConfig) {
    config.Keys == DefaultConfig.Keys &&
    forall k :: k in config ==> SameKind(config[k], DefaultConfig[k])
  }

  /** A stored client's entry after one setting changed: the defaults,
      overlaid by what was stored for that client, overlaid by the change.
      The changed setting takes the new value, every other setting keeps what
      was stored for the client or else its default, and nothing else is
      added. */
  function Overlay(configs: map<string, ClientConfig>, id: string, key: string, value: ConfigValue): (r: ClientConfig)
    ensures r.Keys == DefaultConfig.Keys + (if id in configs then configs[id].Keys else {}) + {key}
    ensures r[key] == value
    ensures forall k :: k in DefaultConfig && k != key ==>
      r[k] == (if id in configs && k in configs[id] then configs[id][k] else DefaultConfig[k])
  {
    DefaultConfig + (if id in configs then configs[id] else map[]) + map[key := value]
  }

  /** Overlaying a setting of the right kind keeps a well-typed entry well
      typed. */
  lemma OverlaySpec(configs: map<string, ClientConfig>, id: string, key: string, value: ConfigValue)
    requires FitsSetting(key, value)
    requires id in configs ==> WellTyped(configs[id])
    ensures WellTyped(Overlay(configs, id, key, value))
  {
    var r := Overlay(configs, id, key, value);
    forall k | k in r
      ensures k in DefaultConfig && SameKind(r[k], DefaultConfig[k])
    {
      if k == key {
      } else if id in configs && k in configs[id] {
      } else {
      }
    }
  }

  /** Which page the scroll area shows. */
  datatype Content = BillingPage | SupportPage | ClientDetail(id: string) | ClientList

  /** Billing first, then support, then the detail of the selected client,
      and the client list otherwise. */
  function SelectContent(activeView: string, selected: Option<string>): (r: Content)
    ensures activeView == "billing" <==> r == BillingPage
    ensures r == SupportPage <==> activeView == "support"
    ensures r.ClientDetail? <==> activeView != "billing" && activeView != "support" && selected.Some?
    ensures r.ClientDetail? ==> selected == Some(r.id)
    ensures r == ClientList <==> activeView != "billing" && activeView != "support" && selected.None?
  {
    if activeView == "billing" then BillingPage
    else if activeView == "support" then SupportPage
    else if selected.Some? then ClientDetail(selected.value)
    else ClientList
  }

  // Layout arithmetic. Widths are whole density-independent pixels.

  const SidebarWidth := 260
  const PagePadding := 32
  const MinContentWidth := 280
  const CardGap := 16
  const MinCardWidth := 260

  predicate IsWide(width: int) { width >= 960 }

  predicate ShowSideTabs(width: int) { width >= 720 }

  /** The width left for the page, never below the minimum; above the
      minimum it is exactly what the sidebar (when shown) and the padding
      leave of the window. */
  function ContentWidth(width: int): (r: int)
    ensures r >= MinContentWidth
    ensures r > MinContentWidth ==> r + (if IsWide(width) then SidebarWidth else 0) + PagePadding == width
    ensures r == MinContentWidth ==> width - (if IsWide(width) then SidebarWidth else 0) - PagePadding <= MinContentWidth
  {
    var available := width - (if IsWide(width) then SidebarWidth else 0) - PagePadding;
    if available > MinContentWidth then available else MinContentWidth
  }

  function Columns(contentWidth: int): (r: int)
    ensures 1 <= r <= 3
    ensures r == 3 <==> contentWidth >= 960
    ensures r == 2 <==> 720 <= contentWidth < 960
    ensures r == 1 <==> contentWidth < 720
  {
    if contentWidth >= 960 then 3 else if contentWidth >= 720 then 2 else 1
  }

  /** Math.floor of a quotient; the divisor is positive here. */
  function FloorDiv(a: int, b: int): int
    requires b > 0
  {
    a / b
  }

  function CardWidth(contentWidth: int, columns: int): (r: int)
    requires columns > 0
    ensures r >= MinCardWidth
    ensures r > MinCardWidth ==> columns * r + CardGap * (columns - 1) <= contentWidth
    ensures r > MinCardWidth ==> columns * (r + 1) + CardGap * (columns - 1) > contentWidth
    ensures columns * (MinCardWidth + 1) + CardGap * (columns - 1) <= contentWidth ==> r > MinCardWidth
  {
    var share := FloorDiv(contentWidth - CardGap * (columns - 1), columns);
    if share > MinCardWidth then share else MinCardWidth
  }

  /** At every window width a full row of cards with their gaps fits in the
      content area: the lower bound on the card width never pushes a row
      past the edge. */
  lemma RowFits(width: int)
    ensures var cw := ContentWidth(width);
      var cols := Columns(cw);
      var card := CardWidth(cw, cols);
      cols * card + CardGap * (cols - 1) <= cw
  {
    var cw := ContentWidth(width);
    var cols := Columns(cw);
    var share := FloorDiv(cw - CardGap * (cols - 1), cols);
    assert share * cols <= cw - CardGap * (cols - 1);
    if cols == 1 {
      assert share == cw;
    } else if cols == 2 {
      assert share * 2 >= cw - 16 - 1;
    } else {
      assert share * 3 >= cw - 32 - 2;
    }
    assert share >= MinCardWidth;
  }

  /** Card `index` of the grid is followed by a gap. */
  predicate HasRightMargin(index: nat, columns: int)
    requires columns > 0
  {
    (index + 1) % columns != 0
  }

  lemma MulAtLeast(k: int, c: int)
    requires k >= 1 && c > 0
    ensures k * c >= c
  {
    assert k * c == (k - 1) * c + c;
    assert (k - 1) * c >= 0;
  }

  /** The remainder is the only one: `a == q * c + m` with `m` in range
      fixes `a % c`. */
  lemma ModUnique(a: int, c: int, q: int, m: int)
    requires c > 0 && 0 <= m < c && a == q * c + m
    ensures a % c == m
  {
    var q2, m2 := a / c, a % c;
    assert a == q2 * c + m2;
    assert (q - q2) * c == m2 - m;
    if q > q2 {
      MulAtLeast(q - q2, c);
    } else if q < q2 {
      MulAtLeast(q2 - q, c);
    }
  }

  /** Exactly the card that closes a row goes without a right gap. */
  lemma MarginUnlessLastInRow(index: nat, columns: int)
    requires columns > 0
    ensures HasRightMargin(index, columns) <==> index % columns != columns - 1
  {
    var q, m := index / columns, index % columns;
    assert index == q * columns + m;
    if m == columns - 1 {
      assert index + 1 == (q + 1) * columns + 0;
      ModUnique(index + 1, columns, q + 1, 0);
    } else {
      ModUnique(index + 1, columns, q, m + 1);
    }
  }

  /** The bar of tabs pinned under the page on narrow screens. */
  predicate ShowMobileTabsBar(selected: Option<string>, width: int) {
    !ShowSideTabs(width) && selected.Some?
  }

  /** The extra room under the scroll area is reserved exactly when the
      pinned tab bar covers the bottom of the page. */
  function ScrollPaddingBottom(selected: Option<string>, width: int): (r: int)
    ensures r == 120 <==> ShowMobileTabsBar(selected, width)
    ensures r != 120 ==> r == 32
  {
    if selected.Some? && !ShowSideTabs(width) then 120 else 32
  }

  /** The screen's state. Clients are identified by their id. */
  class DashboardState {
    var activeView: string
    var selectedClient: Option<string>
    var activeTab: string
    var clientConfigs: map<string, ClientConfig>

    /** Every stored entry is well typed, and a client stays selected only
        on a page that lists or details clients. */
    predicate Valid()
      reads this
    {
      (forall id :: id in clientConfigs ==> WellTyped(clientConfigs[id])) &&
      (selectedClient.Some? ==> activeView != "billing" && activeView != "support")
    }

    constructor ()
      ensures Valid()
      ensures activeView == "clients" && selectedClient == None
      ensures activeTab == "intake" && clientConfigs == map[]
    {
      activeView := "clients";
      selectedClient := None;
      activeTab := "intake";
      clientConfigs := map[];
    }

    /** The configuration the tabs display. */
    function CurrentConfig(): (r: ClientConfig)
      reads this
      ensures selectedClient.None? ==> r == DefaultConfig
      ensures selectedClient.Some? && selectedClient.value !in clientConfigs ==> r == DefaultConfig
      ensures selectedClient.Some? && selectedClient.value in clientConfigs ==> r == clientConfigs[selectedClient.value]
      ensures Valid() ==> WellTyped(r)
    {
      if selectedClient.Some? && selectedClient.value in clientConfigs
      then clientConfigs[selectedClient.value]
      else DefaultConfig
    }

    function Content(): Content
      reads this
    {
      SelectContent(activeView, selectedClient)
    }

    /** Changing a setting with no client selected does nothing; otherwise
        only the selected client's entry changes, to the overlay of the
        change on its stored values and the defaults. */
    method UpdateConfig(key: string, value: ConfigValue)
      requires Valid() && FitsSetting(key, value)
      modifies this
      ensures Valid()
      ensures activeView == old(activeView) && selectedClient == old(selectedClient)
      ensures activeTab == old(activeTab)
      ensures old(selectedClient).None? ==> clientConfigs == old(clientConfigs)
      ensures old(selectedClient).Some? ==>
        clientConfigs == old(clientConfigs)[old(selectedClient).value :=
          Overlay(old(clientConfigs), old(selectedClient).value, key, value)]
      ensures selectedClient.Some? ==> CurrentConfig()[key] == value
    {
      if selectedClient.None? {
        return;
      }
      var id := selectedClient.value;
      OverlaySpec(clientConfigs, id, key, value);
      clientConfigs := clientConfigs[id := Overlay(clientConfigs, id, key, value)];
    }

    method UpdateToggle(key: string, on: bool)
      requires Valid() && IsToggleKey(key)
      modifies this
      ensures Valid()
      ensures activeView == old(activeView) && selectedClient == old(selectedClient)
      ensures activeTab == old(activeTab)
      ensures old(selectedClient).None? ==> clientConfigs == old(clientConfigs)
      ensures old(selectedClient).Some? ==>
        clientConfigs == old(clientConfigs)[old(selectedClient).value :=
          Overlay(old(clientConfigs), old(selectedClient).value, key, Flag(on))]
    {
      UpdateConfig(key, Flag(on));
    }

    /** Switching pages always drops the selected client. */
    method HandleViewChange(view: string)
      requires Valid()
      modifies this
      ensures Valid()
      ensures activeView == view && selectedClient == None
      ensures activeTab == old(activeTab) && clientConfigs == old(clientConfigs)
      ensures !Content().ClientDetail?
    {
      activeView := view;
      selectedClient := None;
    }

    /** Tapping a card; cards exist only on the client list. */
    method SelectClient(id: string)
      requires Valid() && Content() == ClientList
      modifies this
      ensures Valid()
      ensures selectedClient == Some(id) && Content() == ClientDetail(id)
      ensures activeView == old(activeView) && activeTab == old(activeTab)
      ensures clientConfigs == old(clientConfigs)
    {
      selectedClient := Some(id);
    }

    /** The back arrow on the detail page. */
    method ClearSelection()
      requires Valid()
      modifies this
      ensures Valid()
      ensures selectedClient == None
      ensures activeView == old(activeView) && activeTab == old(activeTab)
      ensures clientConfigs == old(clientConfigs)
    {
      selectedClient := None;
    }

    method SetActiveTab(tab: string)
      requires Valid()
      modifies this
      ensures Valid()
      ensures activeTab == tab
      ensures activeView == old(activeView) && selectedClient == old(selectedClient)
      ensures clientConfigs == old(clientConfigs)
    {
      activeTab := tab;
    }
  }

  /** In a consistent state the pinned tab bar appears only over a client's
      detail page, never over billing or support. */
  lemma TabsBarOnlyOverDetail(activeView: string, selected: Option<string>, width: int)
    requires selected.Some? ==> activeView != "billing" && activeView != "support"
    ensures ShowMobileTabsBar(selected, width) ==> SelectContent(activeView, selected) == ClientDetail(selected.value)
  {
  }
}
