/** The module registry: the search modules found in the modules directory,
    keyed by their lower-cased class name; the search over it; and the rule
    that turns a `use` argument into a selected module. */
module Registry {
  import opened Base
  import opened Strings
  import Dict
  import ComfyUI
  import EngExample
  import RuExample
  import VncDisabledAuth
  import FtpAnonymousLogin
  import EasyExample

  /** The module classes shipped with the program. */
  datatype ModuleKind = ComfyUIKind | EngExampleKind | RuExampleKind | VncKind | FtpKind | EasyExampleKind

  /** A module instance as the host sees it: its class and the `name` and
      `description` its constructor sets. */
  datatype Plugin = Plugin(kind: ModuleKind, name: string, description: string)

  function ClassName(kind: ModuleKind): string {
    match kind
    case ComfyUIKind => ComfyUI.ClassName
    case EngExampleKind => EngExample.ClassName
    case RuExampleKind => RuExample.ClassName
    case VncKind => VncDisabledAuth.ClassName
    case FtpKind => FtpAnonymousLogin.ClassName
    case EasyExampleKind => EasyExample.ClassName
  }

  /** The instance `attr()` creates. */
  function Instantiate(kind: ModuleKind): Plugin {
    match kind
    case ComfyUIKind => Plugin(kind, ComfyUI.Name, ComfyUI.Description)
    case EngExampleKind => Plugin(kind, EngExample.Name, EngExample.Description)
    case RuExampleKind => Plugin(kind, RuExample.Name, RuExample.Description)
    case VncKind => Plugin(kind, VncDisabledAuth.Name, VncDisabledAuth.Description)
    case FtpKind => Plugin(kind, FtpAnonymousLogin.Name, FtpAnonymousLogin.Description)
    case EasyExampleKind => Plugin(kind, EasyExample.Name, EasyExample.Description)
  }

  /** The registry key of a class. */
  function RegistryKey(kind: ModuleKind): string {
    Lower(ClassName(kind))
  }

  /** The assignments `self.modules[cls.__name__.lower()] = cls()` of a load
      order, one per class. */
  function Assignments(classes: seq<ModuleKind>): (pairs: seq<(string, Plugin)>)
    ensures |pairs| == |classes|
    ensures forall i :: 0 <= i < |classes| ==> pairs[i] == (RegistryKey(classes[i]), Instantiate(classes[i]))
  {
    seq(|classes|, i requires 0 <= i < |classes| => (RegistryKey(classes[i]), Instantiate(classes[i])))
  }

  /** The registry after registering the classes in load order. */
  function Registered(modules: Dict.Entries<string, Plugin>, classes: seq<ModuleKind>): Dict.Entries<string, Plugin> {
    Dict.PutAll<string, Plugin>(modules, Assignments(classes))
  }

  /** The last class registered under a key wins, and the keys stay distinct. */
  lemma LastRegisteredWins(modules: Dict.Entries<string, Plugin>, classes: seq<ModuleKind>, i: nat)
    requires Dict.DistinctKeys(modules)
    requires i < |classes| && forall j :: i < j < |classes| ==> RegistryKey(classes[j]) != RegistryKey(classes[i])
    ensures Dict.DistinctKeys(Registered(modules, classes))
    ensures Dict.Get<string, Plugin>(Registered(modules, classes), RegistryKey(classes[i])) == Some(Instantiate(classes[i]))
  {
    var pairs := Assignments(classes);
    Dict.PutAllGet<string, Plugin>(modules, pairs, RegistryKey(classes[i]));
    Dict.GetLast<string, Plugin>(pairs, i);
  }

  /** A key no class maps to keeps the entry it had. */
  lemma UnregisteredKeyKept(modules: Dict.Entries<string, Plugin>, classes: seq<ModuleKind>, key: string)
    requires Dict.DistinctKeys(modules)
    requires forall i :: 0 <= i < |classes| ==> RegistryKey(classes[i]) != key
    ensures Dict.Get<string, Plugin>(Registered(modules, classes), key) == Dict.Get<string, Plugin>(modules, key)
  {
    var pairs := Assignments(classes);
    Dict.PutAllGet<string, Plugin>(modules, pairs, key);
    Dict.HasKeyAt<string, Plugin>(pairs, key);
  }

  /** The files of the modules directory in alphabetical order, one class
      each. */
  const ShippedClasses := [ComfyUIKind, EasyExampleKind, EngExampleKind, FtpKind, RuExampleKind, VncKind]

  /** The lower-cased names of the shipped classes. */
  lemma ShippedKeys()
    ensures RegistryKey(ComfyUIKind) == "comfyuimodule"
    ensures RegistryKey(EasyExampleKind) == "yourmodulename"
    ensures RegistryKey(EngExampleKind) == "examplemodule"
    ensures RegistryKey(FtpKind) == "ftp_anonymous_login"
    ensures RegistryKey(RuExampleKind) == "examplemodule"
    ensures RegistryKey(VncKind) == "vnc_disabled_auth"
  {
  }

  /** Registering a key not yet present appends its entry. */
  lemma RegisterNew(pairs: seq<(string, Plugin)>, k: nat)
    requires k < |pairs| && Dict.DistinctKeys(Dict.PutAll<string, Plugin>([], pairs[..k]))
    requires forall i :: 0 <= i < |Dict.PutAll<string, Plugin>([], pairs[..k])| ==> Dict.PutAll<string, Plugin>([], pairs[..k])[i].0 != pairs[k].0
    ensures Dict.PutAll<string, Plugin>([], pairs[..k + 1]) == Dict.PutAll<string, Plugin>([], pairs[..k]) + [pairs[k]]
    ensures Dict.DistinctKeys(Dict.PutAll<string, Plugin>([], pairs[..k + 1]))
  {
    var r := Dict.PutAll<string, Plugin>([], pairs[..k]);
    assert pairs[..k + 1][..k] == pairs[..k];
    Dict.HasKeyAt<string, Plugin>(r, pairs[k].0);
    Dict.PutSpec<string, Plugin>(r, pairs[k].0, pairs[k].1);
  }

  /** Registering a key already present at position `j` replaces that entry. */
  lemma RegisterAgain(pairs: seq<(string, Plugin)>, k: nat, j: nat)
    requires k < |pairs| && Dict.DistinctKeys(Dict.PutAll<string, Plugin>([], pairs[..k]))
    requires j < |Dict.PutAll<string, Plugin>([], pairs[..k])| && Dict.PutAll<string, Plugin>([], pairs[..k])[j].0 == pairs[k].0
    ensures Dict.PutAll<string, Plugin>([], pairs[..k + 1]) == Dict.PutAll<string, Plugin>([], pairs[..k])[j := pairs[k]]
    ensures Dict.DistinctKeys(Dict.PutAll<string, Plugin>([], pairs[..k + 1]))
  {
    var r := Dict.PutAll<string, Plugin>([], pairs[..k]);
    assert pairs[..k + 1][..k] == pairs[..k];
    Dict.HasKeyAt<string, Plugin>(r, pairs[k].0);
    Dict.PutSpec<string, Plugin>(r, pairs[k].0, pairs[k].1);
  }

  /** The keys the shipped classes assign, in load order. */
  lemma ShippedAssignments()
    ensures |Assignments(ShippedClasses)| == 6
    ensures Assignments(ShippedClasses)[0].0 == "comfyuimodule"
    ensures Assignments(ShippedClasses)[1].0 == "yourmodulename"
    ensures Assignments(ShippedClasses)[2].0 == "examplemodule"
    ensures Assignments(ShippedClasses)[3].0 == "ftp_anonymous_login"
    ensures Assignments(ShippedClasses)[4].0 == "examplemodule"
    ensures Assignments(ShippedClasses)[5].0 == "vnc_disabled_auth"
  {
    ShippedKeys();
  }

  /** Six assignments whose fifth repeats the third key and whose other keys
      are distinct leave five entries, the fifth value in the third place. */
  lemma SixWithOneRepeat(p: seq<(string, Plugin)>)
    requires |p| == 6 && p[4].0 == p[2].0
    requires p[0].0 != p[1].0 && p[0].0 != p[2].0 && p[0].0 != p[3].0 && p[0].0 != p[5].0
    requires p[1].0 != p[2].0 && p[1].0 != p[3].0 && p[1].0 != p[5].0
    requires p[2].0 != p[3].0 && p[2].0 != p[5].0 && p[3].0 != p[5].0
    ensures Dict.PutAll<string, Plugin>([], p) == [p[0], p[1], p[4], p[3], p[5]]
  {
    assert p[..0] == [];
    RegisterNew(p, 0);
    RegisterNew(p, 1);
    RegisterNew(p, 2);
    RegisterNew(p, 3);
    RegisterAgain(p, 4, 2);
    RegisterNew(p, 5);
    assert p[..6] == p;
  }

  /** `ExampleModule` is defined twice: in that load order the Russian module
      replaces the English one, so six classes give five entries, in the order
      their keys were first assigned. */
  lemma ExampleModulesCollide()
    ensures RegistryKey(EngExampleKind) == RegistryKey(RuExampleKind) == "examplemodule"
    ensures Dict.Keys(Registered([], ShippedClasses))
            == ["comfyuimodule", "yourmodulename", "examplemodule", "ftp_anonymous_login", "vnc_disabled_auth"]
    ensures Dict.Get<string, Plugin>(Registered([], ShippedClasses), "examplemodule") == Some(Instantiate(RuExampleKind))
  {
    ShippedKeys();
    ShippedAssignments();
    var p := Assignments(ShippedClasses);
    assert "comfyuimodule"[0] == 'c' && "yourmodulename"[0] == 'y' && "examplemodule"[0] == 'e';
    assert "ftp_anonymous_login"[0] == 'f' && "vnc_disabled_auth"[0] == 'v';
    SixWithOneRepeat(p);
    LastRegisteredWins([], ShippedClasses, 4);
  }

  // ---------------------------------------------------------------------------
  // search_modules

  /** A registry entry matches when the lower-cased query occurs in its key
      or in its module's lower-cased name. */
  predicate Matches(query: string, entry: (string, Plugin)) {
    Contains(Lower(entry.0), Lower(query)) || Contains(Lower(entry.1.name), Lower(query))
  }

  function MatchFn(query: string): ((string, Plugin)) -> bool {
    entry => Matches(query, entry)
  }

  /** One numbered line of the search listing, kept in `last_search_results`. */
  datatype Listed = Listed(index: nat, key: string, plugin: Plugin)

  /** The listing: the matching entries in registry order, numbered from 1. */
  function Listing(modules: Dict.Entries<string, Plugin>, query: string): (r: seq<Listed>)
    ensures |r| == |Filter(modules, MatchFn(query))|
    ensures forall i :: 0 <= i < |r| ==>
              r[i] == Listed(i + 1, Filter(modules, MatchFn(query))[i].0, Filter(modules, MatchFn(query))[i].1)
  {
    var found := Filter(modules, MatchFn(query));
    seq(|found|, i requires 0 <= i < |found| => Listed(i + 1, found[i].0, found[i].1))
  }

  /** The listing holds exactly the matching entries, in registry order. */
  lemma ListingMembers(modules: Dict.Entries<string, Plugin>, query: string, key: string, plugin: Plugin)
    ensures IsSubsequence(Filter(modules, MatchFn(query)), modules)
    ensures (exists i :: 0 <= i < |Listing(modules, query)| && Listing(modules, query)[i].key == key && Listing(modules, query)[i].plugin == plugin)
            <==> (key, plugin) in modules && Matches(query, (key, plugin))
  {
    FilterIsSubsequence(modules, MatchFn(query));
    FilterMembers(modules, MatchFn(query), (key, plugin));
    var found := Filter(modules, MatchFn(query));
    if (key, plugin) in found {
      var i :| 0 <= i < |found| && found[i] == (key, plugin);
      assert Listing(modules, query)[i].key == key;
    }
  }

  /** Every listed entry is the registry entry of its key. */
  lemma ListingRegistered(modules: Dict.Entries<string, Plugin>, query: string)
    requires Dict.DistinctKeys(modules)
    ensures forall i :: 0 <= i < |Listing(modules, query)| ==>
              Dict.Get<string, Plugin>(modules, Listing(modules, query)[i].key) == Some(Listing(modules, query)[i].plugin)
  {
    var found := Filter(modules, MatchFn(query));
    forall i | 0 <= i < |found|
      ensures Dict.Get<string, Plugin>(modules, found[i].0) == Some(found[i].1)
    {
      FilterMembers(modules, MatchFn(query), found[i]);
      var j :| 0 <= j < |modules| && modules[j] == found[i];
      Dict.GetAt<string, Plugin>(modules, j);
    }
  }

  /** An empty query matches every module. */
  lemma EmptyQueryListsAll(modules: Dict.Entries<string, Plugin>)
    ensures |Listing(modules, "")| == |modules|
  {
    forall k | 0 <= k < |modules| ensures MatchFn("")(modules[k]) {
      assert StartsWith(Lower(modules[k].0), Lower(""));
    }
    FilterAll(modules, MatchFn(""));
  }

  // ---------------------------------------------------------------------------
  // use_module

  /** How `use_module` treats its argument. */
  datatype Selection = SearchFirst | InvalidIndex | UnknownName | Selected(plugin: Plugin)

  /** The decision of `use_module`: a name needs a previous non-empty
      listing; a number `n` selects the `n`-th listed module, counting from 1;
      a name selects by exact registry key. */
  function Select(listing: seq<Listed>, modules: Dict.Entries<string, Plugin>, identifier: string): Selection {
    if listing == [] && !IsDigits(identifier) then SearchFirst
    else if IsDigits(identifier) then
      var index := DigitsValue(identifier) - 1;
      if 0 <= index < |listing| then Selected(listing[index].plugin) else InvalidIndex
    else
      match Dict.Get<string, Plugin>(modules, identifier)
      case Some(p) => Selected(p)
      case None => UnknownName
  }

  /** A number selects exactly when it lies between 1 and the listing size. */
  lemma SelectByNumber(listing: seq<Listed>, modules: Dict.Entries<string, Plugin>, identifier: string)
    requires IsDigits(identifier)
    ensures Select(listing, modules, identifier).Selected? <==> 1 <= DigitsValue(identifier) <= |listing|
    ensures Select(listing, modules, identifier).Selected? ==>
              Select(listing, modules, identifier).plugin == listing[DigitsValue(identifier) - 1].plugin
  {
  }

  /** A name selects exactly when a listing exists and the name is a registry
      key, and then selects that key's module. */
  lemma SelectByName(listing: seq<Listed>, modules: Dict.Entries<string, Plugin>, identifier: string)
    requires !IsDigits(identifier)
    ensures Select(listing, modules, identifier).Selected? <==> listing != [] && Dict.HasKey(modules, identifier)
    ensures Select(listing, modules, identifier).Selected? ==>
              Some(Select(listing, modules, identifier).plugin) == Dict.Get<string, Plugin>(modules, identifier)
  {
  }

  /** Typing back the number printed in front of a listed module selects it. */
  lemma PrintedNumberSelects(listing: seq<Listed>, modules: Dict.Entries<string, Plugin>, i: nat)
    requires i < |listing|
    ensures Select(listing, modules, NatToString(i + 1)) == Selected(listing[i].plugin)
  {
    DigitsRoundTrip(i + 1);
  }
}
