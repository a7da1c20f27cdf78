/** filter/filter_schemas.py: the filter and filter-option records and their
    dictionary serialisers. */
module FilterSchemas {
  import opened Common

  /** The Python values the serialised dictionaries hold. */
  datatype PyValue = PyStr(s: string) | PyNone | PyBool(b: bool)

  /** `FilterOptionBase(id, name, code, category=None, selected=False)`. */
  datatype FilterOptionBase = FilterOptionBase(
    id: string, name: string, code: string,
    category: Option<string> := None, selected: bool := false)

  /** `FilterBase(id, name, code, category=None, options=None, selected=False)`. */
  datatype FilterBase = FilterBase(
    id: string, name: string, code: string,
    category: Option<string> := None,
    options: Option<seq<FilterOptionBase>> := None,
    selected: bool := false)

  /** The keys of both `to_dict` results, in their insertion order. */
  const DictKeys: seq<string> := ["id", "name", "code", "category", "selected"]

  function OptionalStr(v: Option<string>): PyValue
  {
    if v.Some? then PyStr(v.value) else PyNone
  }

  function FromOptionalStr(v: PyValue): Option<Option<string>>
  {
    match v
    case PyStr(s) => Some(Some(s))
    case PyNone => Some(None)
    case PyBool(_) => None
  }

  /** The constructor defaults: no category, no options, not selected. */
  lemma FilterBaseDefaults(id: string, name: string, code: string)
    ensures var f := FilterBase(id, name, code);
      f.category == None && f.options == None && !f.selected
  {
  }

  lemma FilterOptionBaseDefaults(id: string, name: string, code: string)
    ensures var o := FilterOptionBase(id, name, code);
      o.category == None && !o.selected
  {
  }

  /** `FilterBase.to_dict()`: exactly the five keys, the options left out. */
  function FilterToDict(f: FilterBase): (d: map<string, PyValue>)
    ensures d.Keys == {"id", "name", "code", "category", "selected"}
    ensures "options" !in d
    ensures d["selected"] == PyBool(f.selected) && d["id"] == PyStr(f.id)
  {
    map["id" := PyStr(f.id), "name" := PyStr(f.name), "code" := PyStr(f.code),
        "category" := OptionalStr(f.category), "selected" := PyBool(f.selected)]
  }

  /** `FilterOptionBase.to_dict()`: the same five keys, taken from the option's fields. */
  function OptionToDict(o: FilterOptionBase): (d: map<string, PyValue>)
    ensures d.Keys == {"id", "name", "code", "category", "selected"}
    ensures d["selected"] == PyBool(o.selected) && d["id"] == PyStr(o.id)
  {
    map["id" := PyStr(o.id), "name" := PyStr(o.name), "code" := PyStr(o.code),
        "category" := OptionalStr(o.category), "selected" := PyBool(o.selected)]
  }

  /** The record a serialised dictionary describes, when it has the five keys with
      the right kinds of values. */
  function RecordFields(d: map<string, PyValue>): Option<(string, string, string, Option<string>, bool)>
  {
    if "id" in d && "name" in d && "code" in d && "category" in d && "selected" in d
       && d["id"].PyStr? && d["name"].PyStr? && d["code"].PyStr? && d["selected"].PyBool?
       && FromOptionalStr(d["category"]).Some?
    then Some((d["id"].s, d["name"].s, d["code"].s, FromOptionalStr(d["category"]).value, d["selected"].b))
    else None
  }

  function FilterFromDict(d: map<string, PyValue>): Option<FilterBase>
  {
    match RecordFields(d)
    case None => None
    case Some((id, name, code, category, selected)) =>
      Some(FilterBase(id, name, code, category, None, selected))
  }

  function OptionFromDict(d: map<string, PyValue>): Option<FilterOptionBase>
  {
    match RecordFields(d)
    case None => None
    case Some((id, name, code, category, selected)) =>
      Some(FilterOptionBase(id, name, code, category, selected))
  }

  /** Serialising a filter loses only its options. */
  lemma FilterDictRoundTrip(f: FilterBase)
    ensures FilterFromDict(FilterToDict(f)) == Some(f.(options := None))
  {
  }

  /** Serialising an option loses nothing. */
  lemma OptionDictRoundTrip(o: FilterOptionBase)
    ensures OptionFromDict(OptionToDict(o)) == Some(o)
  {
  }

  /** Python's `repr` of the values. A string is always put between single quotes,
      which is what `repr` gives for strings without quotes, backslashes or unprintable
      characters; for other strings `repr` chooses other quotes or escapes. */
  function ReprValue(v: PyValue): string
  {
    match v
    case PyStr(s) => "'" + s + "'"
    case PyNone => "None"
    case PyBool(b) => if b then "True" else "False"
  }

  function ReprItems(keys: seq<string>, d: map<string, PyValue>): string
    requires forall k :: k in keys ==> k in d
  {
    if keys == [] then ""
    else
      var item := "'" + keys[0] + "': " + ReprValue(d[keys[0]]);
      if |keys| == 1 then item else item + ", " + ReprItems(keys[1..], d)
  }

  /** `FilterBase.__str__()`: the class name, then the rendering of `to_dict()` in
      parentheses. */
  function FilterStr(f: FilterBase): (r: string)
    ensures |r| >= 14 && r[..12] == "FilterBase({" && r[|r| - 2..] == "})"
  {
    "FilterBase(" + "{" + ReprItems(DictKeys, FilterToDict(f)) + "}" + ")"
  }

  /** The options never show in `str(f)`. */
  lemma FilterStrIgnoresOptions(f: FilterBase, options: Option<seq<FilterOptionBase>>)
    ensures FilterStr(f.(options := options)) == FilterStr(f)
  {
    assert FilterToDict(f.(options := options)) == FilterToDict(f);
  }
}
