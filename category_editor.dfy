/**
 * The category editor page (src/pages/categories/CategoryEditor.jsx): the
 * form is filled from a stored category when editing, saved back into the
 * store's category list (merge in edit mode, append in create mode) and
 * edited one field at a time, with the slug derived from the label while
 * creating.
 *
 * Categories and the form are JavaScript objects, modelled as maps from
 * property names to values, so that the object spread `{ ...cat, ...form }`
 * is the map union `cat + form`.
 */
module CategoryEditor {
  import opened Wrappers

  /** The JavaScript values a category property can hold. */
  datatype JsValue = Undefined | Null | Bool(b: bool) | Num(n: int) | Str(s: string)

  /** A category record or the form: property name to value. */
  type Record = map<string, JsValue>

  /**
   * JavaScript truthiness. The accordion defines truthiness again on its own
   * value type: each model keeps only the values its component can hold.
   */
  predicate Truthy(v: JsValue)
  {
    match v
    case Undefined => false
    case Null => false
    case Bool(b) => b
    case Num(n) => n != 0
    case Str(s) => s != ""
  }

  /** `r[key]`: a missing property reads as `undefined`. */
  function Get(r: Record, key: string): JsValue
  {
    if key in r then r[key] else Undefined
  }

  /** `v || fallback`. */
  function Or(v: JsValue, fallback: JsValue): JsValue
  {
    if Truthy(v) then v else fallback
  }

  /** The properties an edit load copies verbatim. */
  const VerbatimKeys: set<string> := {"slug", "label", "shortDescription", "isOnline"}

  /** The properties an edit load replaces by a default when they are falsy, with that default. */
  const Defaults: map<string, JsValue> := map[
    "headline" := Str(""),
    "metaTitle" := Str(""),
    "metaDescription" := Str(""),
    "tldr" := Str(""),
    "imageUrl" := Str(""),
    "imageAlt" := Str(""),
    "collectionTitle" := Str(""),
    "numEntriesPerPage" := Num(12),
    "isFavorite" := Bool(false),
    "sortOrder" := Num(0)]

  /** The fourteen properties of the form. */
  function FormKeys(): set<string>
  {
    VerbatimKeys + Defaults.Keys
  }

  /** The form's state when the page mounts. */
  function InitialForm(): Record
  {
    map[
      "slug" := Str(""),
      "label" := Str(""),
      "headline" := Str(""),
      "metaTitle" := Str(""),
      "metaDescription" := Str(""),
      "shortDescription" := Str(""),
      "tldr" := Str(""),
      "imageUrl" := Str(""),
      "imageAlt" := Str(""),
      "collectionTitle" := Str(""),
      "numEntriesPerPage" := Num(12),
      "isOnline" := Bool(false),
      "isFavorite" := Bool(false),
      "sortOrder" := Num(0)]
  }

  /** `isEditMode = !!slug` for the route's `slug` parameter. */
  predicate IsEditMode(routeSlug: Option<string>)
  {
    routeSlug.Some? && routeSlug.value != ""
  }

  /** `cat.slug === slug`. */
  predicate HasSlug(c: Record, slug: string)
  {
    Get(c, "slug") == Str(slug)
  }

  /** `categories.find(cat => cat.slug === slug)`, as the index of the first match. */
  function Find(cats: seq<Record>, slug: string): (r: Option<nat>)
    ensures r.Some? ==> r.value < |cats| && HasSlug(cats[r.value], slug)
    ensures r.Some? ==> forall j :: 0 <= j < r.value ==> !HasSlug(cats[j], slug)
    ensures r.None? ==> forall j :: 0 <= j < |cats| ==> !HasSlug(cats[j], slug)
  {
    if cats == [] then None
    else if HasSlug(cats[0], slug) then Some(0)
    else
      match Find(cats[1..], slug)
      case Some(i) => Some(i + 1)
      case None => None
  }

  /** The form an edit load builds from a stored category. */
  function LoadedForm(c: Record): (f: Record)
    ensures f.Keys == FormKeys()
    ensures forall k :: k in VerbatimKeys ==> f[k] == Get(c, k)
    ensures forall k :: k in Defaults ==> (Truthy(Get(c, k)) ==> f[k] == Get(c, k))
    ensures forall k :: k in Defaults ==> (!Truthy(Get(c, k)) ==> f[k] == Defaults[k])
  {
    map k | k in FormKeys() :: if k in Defaults then Or(Get(c, k), Defaults[k]) else Get(c, k)
  }

  /** The body of the edit-mode load effect: the new form, given the current one. */
  function FormAfterLoad(cats: seq<Record>, routeSlug: Option<string>, form: Record): Record
  {
    if !IsEditMode(routeSlug) then form
    else
      match Find(cats, routeSlug.value)
      case Some(i) => LoadedForm(cats[i])
      case None => form
  }

  /** `categories.map(cat => cat.slug === slug ? { ...cat, ...form } : cat)`. */
  function MergeMatching(cats: seq<Record>, slug: string, form: Record): (r: seq<Record>)
    ensures |r| == |cats|
    ensures forall i :: 0 <= i < |cats| ==> HasSlug(cats[i], slug) ==> r[i] == cats[i] + form
    ensures forall i :: 0 <= i < |cats| ==> !HasSlug(cats[i], slug) ==> r[i] == cats[i]
  {
    if cats == [] then []
    else [if HasSlug(cats[0], slug) then cats[0] + form else cats[0]] + MergeMatching(cats[1..], slug, form)
  }

  /** The category list `handleSave` stores. */
  function SavedCategories(cats: seq<Record>, routeSlug: Option<string>, form: Record): seq<Record>
  {
    if IsEditMode(routeSlug) then MergeMatching(cats, routeSlug.value, form) else cats + [form]
  }

  /**
   * The form after `handleChange(field, v)`: `field` set to `v`, and while
   * creating, a change of `label` also sets `slug` to the generated slug.
   */
  function Changed(form: Record, field: string, v: JsValue, editMode: bool, generateSlug: JsValue -> string): (r: Record)
    ensures r.Keys == form.Keys + {field} + (if field == "label" && !editMode then {"slug"} else {})
    ensures r[field] == v
    ensures forall k :: k in form && k != field && k != "slug" ==> r[k] == form[k]
    ensures field == "label" && !editMode ==> r["slug"] == Str(generateSlug(v))
    ensures (field != "label" || editMode) && field != "slug" && "slug" in form ==> r["slug"] == form["slug"]
  {
    var withField := form[field := v];
    if field == "label" && !editMode then withField["slug" := Str(generateSlug(v))] else withField
  }

  /**
   * A form as an edit load leaves it: exactly the fourteen properties, and
   * every defaulted property truthy or equal to its default.
   */
  predicate Normalised(f: Record)
  {
    f.Keys == FormKeys() && forall k :: k in Defaults ==> Truthy(f[k]) || f[k] == Defaults[k]
  }

  /** The properties the page edits through text inputs and text areas. */
  const TextKeys: set<string> := {"label", "slug", "headline", "shortDescription", "tldr",
                                  "metaTitle", "collectionTitle", "metaDescription"}

  /** The properties the page edits through switches. */
  const SwitchKeys: set<string> := {"isOnline", "isFavorite"}

  /** A value the form's inputs can give a property without leaving a normalised form. */
  predicate FitsField(field: string, v: JsValue)
  {
    field in FormKeys() && (field in Defaults ==> Truthy(v) || v == Defaults[field])
  }

  // ---------------------------------------------------------------- lemmas

  /**
   * The route alone decides the page's flow: with a non-empty slug, a save
   * keeps the list's length; without one, the load effect never touches the
   * form and a save adds one entry.
   */
  lemma EditModeDecidesFlow(cats: seq<Record>, routeSlug: Option<string>, form: Record)
    ensures IsEditMode(routeSlug) <==> |SavedCategories(cats, routeSlug, form)| == |cats|
    ensures !IsEditMode(routeSlug) ==> FormAfterLoad(cats, routeSlug, form) == form
    ensures !IsEditMode(routeSlug) ==> |SavedCategories(cats, routeSlug, form)| == |cats| + 1
  {
  }

  /** The edit load with no category matching the slug leaves the form unchanged. */
  lemma LoadWithoutMatchKeepsForm(cats: seq<Record>, routeSlug: Option<string>, form: Record)
    requires IsEditMode(routeSlug)
    requires forall j :: 0 <= j < |cats| ==> !HasSlug(cats[j], routeSlug.value)
    ensures FormAfterLoad(cats, routeSlug, form) == form
  {
  }

  /** The edit load with a match fills the form from the first category with that slug. */
  lemma LoadWithMatchFillsForm(cats: seq<Record>, routeSlug: Option<string>, form: Record, i: nat)
    requires IsEditMode(routeSlug)
    requires i < |cats| && HasSlug(cats[i], routeSlug.value)
    requires forall j :: 0 <= j < i ==> !HasSlug(cats[j], routeSlug.value)
    ensures FormAfterLoad(cats, routeSlug, form) == LoadedForm(cats[i])
    ensures FormAfterLoad(cats, routeSlug, form)["slug"] == Str(routeSlug.value)
  {
  }

  /** A form is normalised exactly when an edit load of it gives it back. */
  lemma NormalisedIffFixedPoint(f: Record)
    ensures Normalised(f) <==> LoadedForm(f) == f
  {
    if Normalised(f) {
      var g := LoadedForm(f);
      forall k | k in f ensures g[k] == f[k] {
        if k in Defaults {
          assert Truthy(f[k]) || f[k] == Defaults[k];
        }
      }
    }
  }

  /** Every form an edit load builds is normalised, so loading it again changes nothing. */
  lemma LoadedFormIsNormalised(c: Record)
    ensures Normalised(LoadedForm(c))
    ensures LoadedForm(LoadedForm(c)) == LoadedForm(c)
  {
    NormalisedIffFixedPoint(LoadedForm(c));
  }

  /** The form starts normalised. */
  lemma InitialFormIsNormalised()
    ensures Normalised(InitialForm())
  {
    assert InitialForm().Keys == FormKeys();
  }

  /** Edits of the kind the inputs make (strings in text fields, booleans in switches) keep a form normalised. */
  lemma ChangeKeepsNormalised(form: Record, field: string, v: JsValue, editMode: bool, generateSlug: JsValue -> string)
    requires Normalised(form) && FitsField(field, v)
    ensures Normalised(Changed(form, field, v, editMode, generateSlug))
  {
    var r := Changed(form, field, v, editMode, generateSlug);
    assert "slug" !in Defaults;
    forall k | k in Defaults ensures Truthy(r[k]) || r[k] == Defaults[k] {
      if k != field {
        assert r[k] == form[k];
      }
    }
  }

  /** Every string a text input gives and every boolean a switch gives fits its property. */
  lemma InputValuesFit(field: string, s: string, b: bool)
    ensures field in TextKeys ==> FitsField(field, Str(s))
    ensures field in SwitchKeys ==> FitsField(field, Bool(b))
  {
  }

  /** In edit mode a label change never alters the slug. */
  lemma EditLabelKeepsSlug(form: Record, v: JsValue, generateSlug: JsValue -> string)
    requires "slug" in form
    ensures Changed(form, "label", v, true, generateSlug)["slug"] == form["slug"]
  {
  }

  /** When the form carries the route's slug, merging does not change which entry a lookup finds. */
  lemma {:induction false} MergeKeepsFind(cats: seq<Record>, slug: string, form: Record)
    requires HasSlug(form, slug)
    ensures Find(MergeMatching(cats, slug, form), slug) == Find(cats, slug)
  {
    var m := MergeMatching(cats, slug, form);
    match Find(cats, slug)
    case Some(i) =>
      assert HasSlug(m[i], slug);
      assert forall j :: 0 <= j < i ==> m[j] == cats[j];
      FindIsFirst(m, slug, i);
    case None =>
      assert forall j :: 0 <= j < |m| ==> m[j] == cats[j];
  }

  /** `Find` returns the first match, whatever its recursion. */
  lemma FindIsFirst(cats: seq<Record>, slug: string, i: nat)
    requires i < |cats| && HasSlug(cats[i], slug)
    requires forall j :: 0 <= j < i ==> !HasSlug(cats[j], slug)
    ensures Find(cats, slug) == Some(i)
  {
  }

  /** The merged entry reads every form property from the form. */
  lemma MergedEntryReadsForm(c: Record, form: Record)
    requires form.Keys == FormKeys()
    ensures LoadedForm(c + form) == LoadedForm(form)
  {
    forall k | k in FormKeys() ensures Get(c + form, k) == Get(form, k) {
    }
  }

  /**
   * Saving in edit mode and loading again gives the form back: the first
   * entry with the route's slug is the one merged, it keeps that slug, and
   * it reads every form property from the form.
   */
  lemma SaveThenLoadKeepsForm(cats: seq<Record>, slug: string, form: Record, other: Record)
    requires slug != "" && Normalised(form) && HasSlug(form, slug)
    requires Find(cats, slug).Some?
    ensures FormAfterLoad(SavedCategories(cats, Some(slug), form), Some(slug), other) == form
  {
    var i := Find(cats, slug).value;
    var m := MergeMatching(cats, slug, form);
    MergeKeepsFind(cats, slug, form);
    assert m[i] == cats[i] + form;
    MergedEntryReadsForm(cats[i], form);
    NormalisedIffFixedPoint(form);
  }

  /** Saving in create mode keeps every existing entry, in order, and appends one copy of the form. */
  lemma SaveCreateAppends(cats: seq<Record>, routeSlug: Option<string>, form: Record)
    requires !IsEditMode(routeSlug)
    ensures |SavedCategories(cats, routeSlug, form)| == |cats| + 1
    ensures SavedCategories(cats, routeSlug, form)[..|cats|] == cats
    ensures SavedCategories(cats, routeSlug, form)[|cats|] == form
  {
  }

  /** After creating a category under a new slug, looking that slug up finds the new entry. */
  lemma CreateThenFindsNew(cats: seq<Record>, form: Record, slug: string)
    requires HasSlug(form, slug) && Find(cats, slug).None?
    ensures Find(SavedCategories(cats, None, form), slug) == Some(|cats|)
  {
    FindIsFirst(cats + [form], slug, |cats|);
  }

  // ------------------------------------------------------------ component

  /** The editor page: its route, its form, the store's categories and the `saving` flag. */
  class Editor {
    /** The route's `slug` parameter; `None` on the create route. */
    const routeSlug: Option<string>
    /** `generateSlug` from the helpers module, which is not part of this model. */
    const generateSlug: JsValue -> string
    var form: Record
    var categories: seq<Record>
    var saving: bool

    constructor (routeSlug: Option<string>, categories: seq<Record>, generateSlug: JsValue -> string)
      ensures this.routeSlug == routeSlug && this.generateSlug == generateSlug
      ensures this.categories == categories
      ensures form == InitialForm() && !saving
    {
      this.routeSlug := routeSlug;
      this.generateSlug := generateSlug;
      this.categories := categories;
      form := InitialForm();
      saving := false;
    }

    /** The load effect: in edit mode, fill the form from the first category with the route's slug. */
    method LoadForEdit()
      modifies this`form
      ensures form == FormAfterLoad(categories, routeSlug, old(form))
    {
      if IsEditMode(routeSlug) {
        var found := Find(categories, routeSlug.value);
        if found.Some? {
          form := LoadedForm(categories[found.value]);
        }
      }
    }

    /**
     * `handleSave`: edit mode merges the form into every entry with the
     * route's slug, create mode appends the form; `saving` ends false.
     */
    method Save()
      modifies this`categories, this`saving
      ensures categories == SavedCategories(old(categories), routeSlug, form)
      ensures |categories| == |old(categories)| + (if IsEditMode(routeSlug) then 0 else 1)
      ensures !saving
    {
      saving := true;
      if IsEditMode(routeSlug) {
        categories := MergeMatching(categories, routeSlug.value, form);
      } else {
        categories := categories + [form];
      }
      saving := false;
    }

    /** `handleChange(field, v)`. */
    method Change(field: string, v: JsValue)
      modifies this`form
      ensures form == Changed(old(form), field, v, IsEditMode(routeSlug), generateSlug)
      ensures form[field] == v
    {
      form := form[field := v];
      if field == "label" && !IsEditMode(routeSlug) {
        form := form["slug" := Str(generateSlug(v))];
      }
    }
  }
}
