/** The system-configuration page: the category and search filter, the
    per-category counts, adding, deleting and resetting an entry, and the
    category table with its lookups. */
module SystemConfigPage {
  import opened Models
  import opened Sequences
  import opened Text
  import MD = MockData

  const AllCategories: string := "ALL"

  /** The page's category table: `ALL` first, then one row per category. */
  const Categories: seq<ConfigCategory> := [
    ConfigCategory("ALL", "Toutes", "fas fa-list", "primary"),
    ConfigCategory("GENERAL", "Général", "fas fa-cog", "info"),
    ConfigCategory("SECURITY", "Sécurité", "fas fa-shield-alt", "warning"),
    ConfigCategory("EMAIL", "Email", "fas fa-envelope", "success"),
    ConfigCategory("DATABASE", "Base de données", "fas fa-database", "secondary"),
    ConfigCategory("AI", "Intelligence Artificielle", "fas fa-robot", "danger")
  ]

  const DefaultCategoryIcon: string := "fas fa-cog"
  const DefaultCategoryColor: string := "badge bg-secondary"

  function CategoryHasId(id: string): ConfigCategory -> bool { (c: ConfigCategory) => c.id == id }

  /** `categories.find(c => c.id === id)`: the table's row with that id,
      the ids of the table being distinct. */
  function LookupCategory(id: string): (r: Option<ConfigCategory>)
    ensures forall i :: 0 <= i < |Categories| && Categories[i].id == id ==> r == Some(Categories[i])
    ensures (forall i :: 0 <= i < |Categories| ==> Categories[i].id != id) ==> r.None?
  {
    assert forall i, j :: 0 <= i < j < |Categories| ==> Categories[i].id != Categories[j].id;
    Find(Categories, CategoryHasId(id))
  }

  /** `getCategoryName`: the table's name for a known id, else the id. */
  function GetCategoryName(category: string): (n: string)
    ensures forall i :: 0 <= i < |Categories| && Categories[i].id == category ==> n == Categories[i].name
    ensures (forall i :: 0 <= i < |Categories| ==> Categories[i].id != category) ==> n == category
  {
    match LookupCategory(category)
    case Some(c) => c.name
    case None => category
  }

  /** `getCategoryIcon`: the table's icon for a known id, else the cog. */
  function GetCategoryIcon(category: string): (icon: string)
    ensures forall i :: 0 <= i < |Categories| && Categories[i].id == category ==> icon == Categories[i].icon
    ensures (forall i :: 0 <= i < |Categories| ==> Categories[i].id != category) ==> icon == DefaultCategoryIcon
  {
    match LookupCategory(category)
    case Some(c) => c.icon
    case None => DefaultCategoryIcon
  }

  /** `getCategoryColor`: the badge of the table's colour for a known id,
      else the secondary badge. */
  function GetCategoryColor(category: string): (color: string)
    ensures forall i :: 0 <= i < |Categories| && Categories[i].id == category ==>
              color == "badge bg-" + Categories[i].color
    ensures (forall i :: 0 <= i < |Categories| ==> Categories[i].id != category) ==> color == DefaultCategoryColor
  {
    match LookupCategory(category)
    case Some(c) => "badge bg-" + c.color
    case None => DefaultCategoryColor
  }

  /** Every category of a configuration has a row of the table, under its
      wire name, so the lookups never fall back for a stored entry. */
  lemma EveryCategoryListed(c: ConfigCategoryId)
    ensures exists i :: 1 <= i < |Categories| && Categories[i].id == ConfigCategoryName(c)
  {
    match c
    case General => assert Categories[1].id == "GENERAL";
    case Security => assert Categories[2].id == "SECURITY";
    case Email => assert Categories[3].id == "EMAIL";
    case Database => assert Categories[4].id == "DATABASE";
    case AIModel => assert Categories[5].id == "AI";
  }

  /** Conversely, the table holds nothing else: its first row is the `ALL`
      pseudo-category, which names no category, and every other row names
      one. */
  lemma TableListsOnlyCategories()
    ensures ParseConfigCategory(Categories[0].id).None?
    ensures forall i :: 1 <= i < |Categories| ==> ParseConfigCategory(Categories[i].id).Some?
  {
  }

  // ------------------------------------------------------- filter, counts

  /** The search test: no term, or the lower-cased term occurs in the
      lower-cased key or description. */
  predicate MatchesSearch(c: SystemConfig, searchTerm: string)
  {
    searchTerm == "" ||
    Contains(ToLower(c.key), ToLower(searchTerm)) ||
    Contains(ToLower(c.description), ToLower(searchTerm))
  }

  predicate MatchesCategory(c: SystemConfig, selected: string)
  {
    selected == AllCategories || ConfigCategoryName(c.category) == selected
  }

  function ShownBy(selected: string, searchTerm: string): SystemConfig -> bool
  {
    (c: SystemConfig) => MatchesCategory(c, selected) && MatchesSearch(c, searchTerm)
  }

  /** `filteredConfigs`: exactly the entries of the selected category that
      match the search, in list order. */
  function FilteredConfigs(s: seq<SystemConfig>, selected: string, searchTerm: string): (r: seq<SystemConfig>)
    ensures IsSubseq(r, s)
    ensures forall x :: x in r ==> x in s && MatchesCategory(x, selected) && MatchesSearch(x, searchTerm)
    ensures forall x {:trigger multiset(r)[x]} :: MatchesCategory(x, selected) && MatchesSearch(x, searchTerm) ==>
              multiset(r)[x] == multiset(s)[x]
  {
    Filter(s, ShownBy(selected, searchTerm))
  }

  /** With every category and no search term, nothing is filtered out. */
  lemma NoFilterShowsAll(s: seq<SystemConfig>)
    ensures FilteredConfigs(s, AllCategories, "") == s
  {
    FilterAllKept(s, ShownBy(AllCategories, ""));
  }

  function InCategory(name: string): SystemConfig -> bool
  {
    (c: SystemConfig) => ConfigCategoryName(c.category) == name
  }

  /** `getConfigCount`: the whole list for `ALL`, else the entries whose
      category has that name. */
  function GetConfigCount(s: seq<SystemConfig>, category: string): (n: nat)
    ensures category == AllCategories ==> n == |s|
    ensures category != AllCategories ==> n == Count(s, InCategory(category))
    ensures n <= |s|
  {
    if category == AllCategories then |s| else Count(s, InCategory(category))
  }

  /** The five category counts add up to the whole list. */
  lemma {:induction false} CategoryCountsSum(s: seq<SystemConfig>)
    ensures GetConfigCount(s, "GENERAL") + GetConfigCount(s, "SECURITY") + GetConfigCount(s, "EMAIL") +
            GetConfigCount(s, "DATABASE") + GetConfigCount(s, "AI") == GetConfigCount(s, AllCategories)
    decreases |s|
  {
    if s != [] {
      CategoryCountsSum(s[1..]);
    }
  }

  // ----------------------------------------------------- reset defaults

  /** The built-in value of a key, `""` for a key without one. */
  function DefaultValue(key: string): (v: string)
    ensures key == "app.name" ==> v == "MedInsight"
    ensures key == "security.jwt.expiration" ==> v == "86400000"
    ensures key == "email.smtp.host" ==> v == "smtp.gmail.com"
    ensures key == "ai.model.path" ==> v == "/models/cancer_detection.h5"
    ensures key !in {"app.name", "security.jwt.expiration", "email.smtp.host", "ai.model.path"} ==> v == ""
  {
    if key == "app.name" then "MedInsight"
    else if key == "security.jwt.expiration" then "86400000"
    else if key == "email.smtp.host" then "smtp.gmail.com"
    else if key == "ai.model.path" then "/models/cancer_detection.h5"
    else ""
  }

  /** Resetting a seed entry gives it back its seed value. */
  lemma ResetRestoresSeed(i: nat)
    requires i < |MD.SeedConfigs|
    ensures DefaultValue(MD.SeedConfigs[i].key) == MD.SeedConfigs[i].value
  {
  }

  // ------------------------------------------------------- the component

  /** The values of the new-entry form. */
  datatype NewConfigData = NewConfigData(key: string, value: string, description: string, category: ConfigCategoryId)

  const MissingFieldsMessage: string := "Veuillez remplir tous les champs obligatoires"
  const NotDeletableMessage: string := "Cette configuration ne peut pas être supprimée"

  class SystemConfigComponent {
    var configurations: seq<SystemConfig>
    var loading: bool
    var saving: bool
    var searchTerm: string
    var selectedCategory: string
    var showNewConfigForm: bool

    constructor ()
      ensures configurations == [] && loading && !saving
      ensures searchTerm == "" && selectedCategory == AllCategories && !showNewConfigForm
    {
      configurations := [];
      loading := true;
      saving := false;
      searchTerm := "";
      selectedCategory := AllCategories;
      showNewConfigForm := false;
    }

    /** The `filteredConfigs` getter over the page's state. */
    function Shown(): (r: seq<SystemConfig>)
      reads this
      ensures forall x :: x in r ==> x in configurations && MatchesCategory(x, selectedCategory) &&
                                     MatchesSearch(x, searchTerm)
    {
      FilteredConfigs(configurations, selectedCategory, searchTerm)
    }

    /** `loadConfigurations`: the store's entries. */
    method LoadConfigurations(service: MD.MockDataService)
      modifies this`configurations, this`loading
      ensures configurations == service.configs && !loading
    {
      loading := true;
      configurations := service.configs;
      loading := false;
    }

    /** `saveConfig` of the entry at `index`: its value is written to the
        store; the page's own list is left as it is. */
    method SaveConfig(index: nat, service: MD.MockDataService) returns (saved: bool)
      requires index < |configurations|
      modifies this`saving, service
      ensures service.configs == UpdateById(old(service.configs), MD.ConfigId, configurations[index].id,
                                            MD.SetValue(configurations[index].value))
      ensures saved <==> IndexOfId(old(service.configs), MD.ConfigId, configurations[index].id) != -1
      ensures service.users == old(service.users) && service.services == old(service.services) && !saving
    {
      saving := true;
      var updated := service.UpdateConfig(configurations[index].id, configurations[index].value);
      saved := updated.Some?;
      saving := false;
    }

    /** `resetConfig` of the entry at `index`, once confirmed: its value
        becomes the key's default on the page and in the store. */
    method ResetConfig(index: nat, confirmed: bool, service: MD.MockDataService)
      requires index < |configurations|
      modifies this`configurations, this`saving, service
      ensures !confirmed ==> configurations == old(configurations) && service.configs == old(service.configs) &&
                             saving == old(saving)
      ensures confirmed ==> !saving
      ensures service.users == old(service.users) && service.services == old(service.services)
      ensures confirmed ==> (configurations ==
                old(configurations)[index := old(configurations)[index].(value := DefaultValue(old(configurations)[index].key))])
      ensures confirmed ==> (service.configs == UpdateById(old(service.configs), MD.ConfigId, old(configurations)[index].id,
                                                          MD.SetValue(DefaultValue(old(configurations)[index].key))))
    {
      if confirmed {
        var c := configurations[index];
        configurations := configurations[index := c.(value := DefaultValue(c.key))];
        var _ := SaveConfig(index, service);
      }
    }

    /** `addNewConfig`: an invalid form is refused; otherwise one editable
        entry with the next id is appended and the form closes. */
    method AddNewConfig(formValid: bool, data: NewConfigData) returns (alert: Option<string>)
      modifies this`configurations, this`showNewConfigForm
      ensures !formValid ==> alert == Some(MissingFieldsMessage) && configurations == old(configurations) &&
                             showNewConfigForm == old(showNewConfigForm)
      ensures formValid ==> (alert.None? && !showNewConfigForm &&
                configurations == old(configurations) +
                  [SystemConfig(|old(configurations)| + 1, data.key, data.value, data.description, data.category, true)])
    {
      if !formValid {
        alert := Some(MissingFieldsMessage);
        return;
      }
      alert := None;
      configurations := configurations +
        [SystemConfig(|configurations| + 1, data.key, data.value, data.description, data.category, true)];
      showNewConfigForm := false;
    }

    /** `deleteConfig`: a locked entry is refused with a message; a confirmed
        delete drops every entry with its id. */
    method DeleteConfig(config: SystemConfig, confirmed: bool) returns (alert: Option<string>)
      modifies this`configurations
      ensures !config.editable ==> alert == Some(NotDeletableMessage) && configurations == old(configurations)
      ensures config.editable ==> alert.None?
      ensures config.editable && confirmed ==> configurations == WithoutId(old(configurations), MD.ConfigId, config.id)
      ensures !(config.editable && confirmed) ==> configurations == old(configurations)
    {
      if !config.editable {
        alert := Some(NotDeletableMessage);
        return;
      }
      alert := None;
      if confirmed {
        configurations := WithoutId(configurations, MD.ConfigId, config.id);
      }
    }
  }

  /** A confirmed delete keeps every other entry, in order and with its
      multiplicity, and leaves none with the deleted id. */
  lemma DeleteKeepsOthers(s: seq<SystemConfig>, id: int, x: SystemConfig)
    ensures IsSubseq(WithoutId(s, MD.ConfigId, id), s)
    ensures x in WithoutId(s, MD.ConfigId, id) <==> x in s && x.id != id
  {
    var r := WithoutId(s, MD.ConfigId, id);
    if x in s && x.id != id {
      assert multiset(r)[x] == multiset(s)[x];
    }
  }

  /** The seed list carries one locked entry, `ai.model.path`, which a
      delete never removes. */
  lemma SeedModelPathLocked()
    ensures exists i :: 0 <= i < |MD.SeedConfigs| && MD.SeedConfigs[i].key == "ai.model.path" &&
                        !MD.SeedConfigs[i].editable
  {
    assert MD.SeedConfigs[3].key == "ai.model.path";
  }
}
