/**
 * The adoption form of src/AdoptionCenter.jsx: the fixed tables of animals and
 * colour themes, the name check, the theme lookup by id, and the form whose
 * three fields (name, animal, theme id) the pickers update in place.
 */
module AdoptionCenter {
  import opened Wrappers

  /** The `maxLength` of the name input. */
  const MaxNameLength: nat := 16

  // ---------------------------------------------------------------------------
  // Trimming, as ECMAScript's String.prototype.trim does it
  // ---------------------------------------------------------------------------

  /**
   * The code points `trim` strips: ECMAScript's WhiteSpace (tab, vertical tab,
   * form feed, space, no-break space, byte order mark and the other Unicode
   * "Zs" space separators) and LineTerminator (LF, CR, LS, PS).
   */
  predicate IsTrimmable(c: char) {
    || c == '\U{9}' || c == '\U{B}' || c == '\U{C}' || c == ' '
    || c == '\U{A0}' || c == '\U{FEFF}' || c == '\U{1680}'
    || ('\U{2000}' <= c <= '\U{200A}')
    || c == '\U{202F}' || c == '\U{205F}' || c == '\U{3000}'
    || c == '\n' || c == '\r' || c == '\U{2028}' || c == '\U{2029}'
  }

  /** Every character of `s` from index `lo` up to (not including) `hi` is trimmable. */
  ghost predicate TrimmableBetween(s: string, lo: nat, hi: nat) {
    forall k :: lo <= k < hi && k < |s| ==> IsTrimmable(s[k])
  }

  /** A string with no trimmable character at either end. */
  ghost predicate IsTrimmed(s: string) {
    s == [] || (!IsTrimmable(s[0]) && !IsTrimmable(s[|s| - 1]))
  }

  /** Scanning forward from `i`: the first index whose character is kept, or `|s|`. */
  function KeptFrom(s: string, i: nat): (j: nat)
    requires i <= |s|
    ensures i <= j <= |s| && TrimmableBetween(s, i, j)
    ensures j < |s| ==> !IsTrimmable(s[j])
    decreases |s| - i
  {
    if i == |s| || !IsTrimmable(s[i]) then i else KeptFrom(s, i + 1)
  }

  /** Scanning backward from `j` down to `lo`: the end of the last kept character, or `lo`. */
  function KeptUntil(s: string, lo: nat, j: nat): (e: nat)
    requires lo <= j <= |s|
    ensures lo <= e <= j && TrimmableBetween(s, e, j)
    ensures e > lo ==> !IsTrimmable(s[e - 1])
    decreases j
  {
    if j == lo || !IsTrimmable(s[j - 1]) then j else KeptUntil(s, lo, j - 1)
  }

  /** Where the trimmed string starts in `s`: the first index `trim` keeps, or `|s|`. */
  function TrimStart(s: string): (i: nat)
    ensures i <= |s| && TrimmableBetween(s, 0, i)
    ensures i < |s| ==> !IsTrimmable(s[i])
  {
    KeptFrom(s, 0)
  }

  /**
   * `s.trim()`: the slice of `s` that starts at `TrimStart(s)`, with only trimmable
   * characters before it and after it, and that neither starts nor ends with one.
   */
  function Trim(s: string): (r: string)
    ensures IsTrimmed(r)
    ensures TrimStart(s) + |r| <= |s| && r == s[TrimStart(s)..TrimStart(s) + |r|]
    ensures TrimmableBetween(s, 0, TrimStart(s)) && TrimmableBetween(s, TrimStart(s) + |r|, |s|)
  {
    var lo := KeptFrom(s, 0);
    s[lo..KeptUntil(s, lo, |s|)]
  }

  /** Trimming an already trimmed string changes nothing. */
  lemma TrimOfTrimmed(t: string)
    requires IsTrimmed(t)
    ensures Trim(t) == t
  {
    assert TrimStart(t) == 0;
    assert KeptUntil(t, 0, |t|) == |t|;
  }

  /** `trim` is idempotent: the emitted name trims to itself. */
  lemma {:induction false} TrimIdempotent(s: string)
    ensures Trim(Trim(s)) == Trim(s)
  {
    TrimOfTrimmed(Trim(s));
  }

  /** The trimmed string is empty exactly when every character is trimmable. */
  lemma {:induction false} TrimEmptyIff(s: string)
    ensures Trim(s) == [] <==> TrimmableBetween(s, 0, |s|)
  {
    var i, r := TrimStart(s), Trim(s);
    if r != [] {
      assert s[i] == r[0];
    }
  }

  /**
   * `canStart`: the form may be submitted exactly when the name holds some
   * character that is not trimmable.
   */
  function CanStart(name: string): (ok: bool)
    ensures ok <==> exists k :: 0 <= k < |name| && !IsTrimmable(name[k])
  {
    TrimEmptyIff(name);
    |Trim(name)| > 0
  }

  // ---------------------------------------------------------------------------
  // The fixed tables
  // ---------------------------------------------------------------------------

  /** An animal the form offers; the drawing component it names is not modelled. */
  datatype Animal = Animal(id: string, caption: string)

  /** A colour theme: its id, its caption and the three style strings it carries. */
  datatype Theme = Theme(id: string, caption: string, bg: string, accent: string, border: string)

  const Animals: seq<Animal> := [
    Animal("cat", "Cat"),
    Animal("dino", "Dino"),
    Animal("slime", "Slime")
  ]

  const Themes: seq<Theme> := [
    Theme("pink", "Sakura Pink", "from-pink-100 via-fuchsia-100 to-violet-100", "#f472b6", "border-pink-300"),
    Theme("blue", "Sky Blue", "from-sky-100 via-cyan-100 to-blue-100", "#38bdf8", "border-sky-300"),
    Theme("green", "Slime Green", "from-green-100 via-emerald-100 to-teal-100", "#4ade80", "border-green-300")
  ]

  ghost predicate IsAnimalId(id: string) {
    exists k :: 0 <= k < |Animals| && Animals[k].id == id
  }

  ghost predicate IsThemeId(id: string) {
    exists k :: 0 <= k < |Themes| && Themes[k].id == id
  }

  /** No two themes share an id. */
  ghost predicate DistinctIds(themes: seq<Theme>) {
    forall j, k :: 0 <= j < k < |themes| ==> themes[j].id != themes[k].id
  }

  /**
   * `themes.find(t => t.id === id)`: the first theme with that id, or none when
   * no theme has it.
   */
  function FindTheme(themes: seq<Theme>, id: string): (r: Option<Theme>)
    ensures r.None? <==> forall k :: 0 <= k < |themes| ==> themes[k].id != id
    ensures r.Some? ==> exists k :: 0 <= k < |themes| && themes[k] == r.value && themes[k].id == id
                           && forall j :: 0 <= j < k ==> themes[j].id != id
  {
    if themes == [] then None
    else if themes[0].id == id then Some(themes[0])
    else
      var r := FindTheme(themes[1..], id);
      if r.Some? then
        var k :| 0 <= k < |themes[1..]| && themes[1..][k] == r.value && themes[1..][k].id == id
                 && forall j :: 0 <= j < k ==> themes[1..][j].id != id;
        assert themes[k + 1] == r.value;
        r
      else r
  }

  /** With distinct ids, looking up any theme's id yields that very theme. */
  lemma {:induction false} FindThemeOwnId(themes: seq<Theme>, k: nat)
    requires DistinctIds(themes) && k < |themes|
    ensures FindTheme(themes, themes[k].id) == Some(themes[k])
  {
    var r := FindTheme(themes, themes[k].id);
    var m :| 0 <= m < |themes| && themes[m] == r.value && themes[m].id == themes[k].id
             && forall j :: 0 <= j < m ==> themes[j].id != themes[k].id;
    assert m == k;
  }

  /** The table's ids are distinct and every picker button's id is found. */
  lemma ThemeLookupAlwaysSucceeds()
    ensures DistinctIds(Themes)
    ensures forall k :: 0 <= k < |Themes| ==> FindTheme(Themes, Themes[k].id) == Some(Themes[k])
  {
    forall k | 0 <= k < |Themes|
      ensures FindTheme(Themes, Themes[k].id) == Some(Themes[k])
    {
      FindThemeOwnId(Themes, k);
    }
  }

  // ---------------------------------------------------------------------------
  // The form
  // ---------------------------------------------------------------------------

  /** What `onAdopt` receives. */
  datatype AdoptRequest = AdoptRequest(name: string, animal: string, theme: Theme)

  /** The form's state: the typed name and the ids of the picked animal and theme. */
  class Form {
    var name: string
    var animal: string
    var themeId: string

    /** The name fits the input and both picks come from their tables. */
    ghost predicate Valid()
      reads this
    {
      |name| <= MaxNameLength && IsAnimalId(animal) && IsThemeId(themeId)
    }

    /** A fresh form: empty name, the cat and the pink theme. */
    constructor ()
      ensures Valid()
      ensures name == "" && animal == "cat" && themeId == "pink"
      ensures animal == Animals[0].id && themeId == Themes[0].id
    {
      assert Animals[0].id == "cat" && Themes[0].id == "pink";
      name := "";
      animal := "cat";
      themeId := "pink";
    }

    /** The name input's change handler; the input never delivers more than 16 characters. */
    method TypeName(value: string)
      requires Valid() && |value| <= MaxNameLength
      modifies this`name
      ensures Valid() && name == value
    {
      name := value;
    }

    /** A click on the `k`-th animal button. */
    method PickAnimal(k: nat)
      requires Valid() && k < |Animals|
      modifies this`animal
      ensures Valid() && animal == Animals[k].id
    {
      animal := Animals[k].id;
    }

    /** A click on the `k`-th theme button. */
    method PickTheme(k: nat)
      requires Valid() && k < |Themes|
      modifies this`themeId
      ensures Valid() && themeId == Themes[k].id
    {
      themeId := Themes[k].id;
    }

    /** `theme`: the table entry whose id is the picked one; the lookup never misses. */
    function SelectedTheme(): (t: Theme)
      reads this
      requires Valid()
      ensures t in Themes && t.id == themeId
      ensures forall u :: u in Themes && u.id == themeId ==> u == t
    {
      ThemeLookupAlwaysSucceeds();
      FindTheme(Themes, themeId).value
    }

    /**
     * `handleSubmit`: nothing is emitted unless the name can start; otherwise the
     * trimmed name, the animal and the theme are. The emitted name is non-empty,
     * at most 16 characters, and has no trimmable character at either end.
     */
    method Submit() returns (request: Option<AdoptRequest>)
      requires Valid()
      ensures request.None? <==> !CanStart(name)
      ensures request.Some? ==> request.value == AdoptRequest(Trim(name), animal, SelectedTheme())
      ensures request.Some? ==>
        && 0 < |request.value.name| <= MaxNameLength
        && Trim(request.value.name) == request.value.name
        && IsAnimalId(request.value.animal)
    {
      if !CanStart(name) {
        return None;
      }
      var trimmed := Trim(name);
      TrimIdempotent(name);
      request := Some(AdoptRequest(trimmed, animal, SelectedTheme()));
    }
  }
}
