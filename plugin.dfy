/**
 * The plugin vocabulary of `plugin.py`: the four events a trigger can name,
 * and the `Button` and `Trigger` records that pair a name or an event with a
 * callback.  A callback is a bound method of a plugin; it is kept abstract
 * here (the type parameter `C`) and becomes the plugin procedure it runs in
 * the module of the core plugins.
 */
module PluginBase {
  import opened Py

  /** The `Literal` values a trigger's event may take. */
  datatype Event = OnLoad | OnSave | OnValidate | OnProcess

  /** The literal naming an event; reading it back gives the event. */
  function EventName(e: Event): (s: string)
    ensures s in ["ON_LOAD", "ON_SAVE", "ON_VALIDATE", "ON_PROCESS"]
    ensures EventFromName(s) == Some(e)
  {
    match e
    case OnLoad => "ON_LOAD"
    case OnSave => "ON_SAVE"
    case OnValidate => "ON_VALIDATE"
    case OnProcess => "ON_PROCESS"
  }

  /** The event a string names, if it is one of the four literals. */
  function EventFromName(s: string): (e: Option<Event>)
    ensures e.Some? <==> s in ["ON_LOAD", "ON_SAVE", "ON_VALIDATE", "ON_PROCESS"]
  {
    if s == "ON_LOAD" then Some(OnLoad)
    else if s == "ON_SAVE" then Some(OnSave)
    else if s == "ON_VALIDATE" then Some(OnValidate)
    else if s == "ON_PROCESS" then Some(OnProcess)
    else None
  }

  /** Every string that names an event is that event's name, so two events never share a name. */
  lemma EventFromNameRoundTrip(s: string)
    requires EventFromName(s).Some?
    ensures EventName(EventFromName(s).value) == s
  {
  }

  /** `Button(name, callback)`. */
  datatype Button<C> = Button(name: string, callback: C)

  /** `Trigger(event, callback)`. */
  datatype Trigger<C> = Trigger(event: Event, callback: C)
}
