/** The values the bridge publishes to the "Bluetooth" namespace, and what
    the namespace shows after a sequence of publications. */
module Properties {

  datatype Option<+T> = None | Some(value: T)

  /** The QVariant kinds that reach the bridge from BlueZ or go out to the
      namespace. */
  datatype Variant =
    | Bool(b: bool)
    | Str(s: string)
    | StrList(items: seq<string>)
    | Other

  /** QVariant::toBool for the kinds above: a boolean is itself, a string is
      true unless it is empty, "0" or "false", anything else is false. */
  function ToBool(v: Variant): (r: bool)
    ensures v.Bool? ==> (r <==> v.b)
    ensures v.Str? ==> (r <==> v.s !in {"", "0", "false"})
    ensures v.StrList? || v.Other? ==> !r
  {
    match v
    case Bool(b) => b
    case Str(s) => s != "" && s != "0" && s != "false"
    case _ => false
  }

  /** QVariant::toStringList: a string list is itself, a single string becomes
      a one-element list, anything else becomes the empty list. */
  function ToStringList(v: Variant): (r: seq<string>)
    ensures v.StrList? ==> r == v.items
    ensures v.Str? ==> r == [v.s]
    ensures v.Bool? || v.Other? ==> r == []
  {
    match v
    case StrList(items) => items
    case Str(s) => [s]
    case _ => []
  }

  /** One call the bridge makes on its namespace: updateProperty(name, value)
      or setProperties(map). Nothing is de-duplicated on the way. */
  datatype Published =
    | Update(name: string, value: Variant)
    | SetAll(props: map<string, Variant>)

  const AddressDefault: string := "00:00:00:00:00:00"

  /** The namespace's defaults: the initial value of each property and what
      a loss of the BlueZ service sets them back to. */
  const Defaults: map<string, Variant> := map[
    "Enabled" := Str("0"),
    "Visible" := Str("0"),
    "Connected" := Str("0"),
    "Address" := Str(AddressDefault),
    "Headset" := Str("0")
  ]

  /** The defaults hold exactly the five namespace properties; every flag
      among them is false and the address is all zeros. */
  lemma DefaultsTable()
    ensures Defaults.Keys == {"Enabled", "Visible", "Connected", "Address", "Headset"}
    ensures forall name :: name in Defaults && name != "Address" ==> AsFlag(Defaults[name]) == Some(false)
    ensures Defaults["Address"] == Str(AddressDefault)
  {
  }

  /** A flag value, read back with toBool, gives the flag it stands for. */
  lemma FlagReadsBack(v: Variant, b: bool)
    requires AsFlag(v) == Some(b)
    ensures ToBool(v) == b
  {
  }

  function Apply(shown: map<string, Variant>, p: Published): map<string, Variant>
  {
    match p
    case Update(name, value) => shown[name := value]
    case SetAll(props) => shown + props
  }

  /** What the namespace shows after the publications in `log`, starting from
      the defaults it is constructed with. */
  function Shown(log: seq<Published>): (shown: map<string, Variant>)
    ensures Defaults.Keys <= shown.Keys
    decreases |log|
  {
    if log == [] then Defaults else Apply(Shown(log[..|log| - 1]), log[|log| - 1])
  }

  /** The boolean a flag property stands for: a published boolean, or the
      string form "0" / "1" of the defaults. */
  function AsFlag(v: Variant): Option<bool>
  {
    match v
    case Bool(b) => Some(b)
    case Str(s) => if s == "0" then Some(false) else if s == "1" then Some(true) else None
    case _ => None
  }

  function ShownFlag(log: seq<Published>, name: string): Option<bool>
  {
    var shown := Shown(log);
    if name in shown then AsFlag(shown[name]) else None
  }

  lemma ShownAppend(log: seq<Published>, p: Published)
    ensures Shown(log + [p]) == Apply(Shown(log), p)
  {
    assert (log + [p])[..|log|] == log;
  }

  /** The latest boolean published under a name is the flag shown for it. */
  lemma ShownLatestFlag(log: seq<Published>, name: string, b: bool)
    ensures ShownFlag(log + [Update(name, Bool(b))], name) == Some(b)
  {
    ShownAppend(log, Update(name, Bool(b)));
  }

  /** A publication that does not mention a name leaves its flag as it was. */
  lemma ShownFlagFrame(log: seq<Published>, p: Published, name: string)
    requires p.Update? ==> p.name != name
    requires p.SetAll? ==> name !in p.props
    ensures ShownFlag(log + [p], name) == ShownFlag(log, name)
  {
    ShownAppend(log, p);
  }

  /** Publishing the defaults shows every default again, whatever came before. */
  lemma {:induction false} ShownAfterDefaults(log: seq<Published>)
    ensures forall name :: name in Defaults ==> Shown(log + [SetAll(Defaults)])[name] == Defaults[name]
    ensures ShownFlag(log + [SetAll(Defaults)], "Connected") == Some(false)
    ensures ShownFlag(log + [SetAll(Defaults)], "Headset") == Some(false)
    ensures ShownFlag(log + [SetAll(Defaults)], "Enabled") == Some(false)
    ensures ShownFlag(log + [SetAll(Defaults)], "Visible") == Some(false)
  {
    ShownAppend(log, SetAll(Defaults));
  }

  /** Before anything is published the namespace shows its defaults. */
  lemma ShownInitially()
    ensures Shown([]) == Defaults
    ensures ShownFlag([], "Connected") == Some(false) && ShownFlag([], "Headset") == Some(false)
    ensures Shown([])["Address"] == Str(AddressDefault)
  {
  }
}
