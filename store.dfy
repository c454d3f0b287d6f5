/**
 * The profile store: the YAML document loaded by viper at start-up, seen by
 * the core only through lookups of `<profile>.<key>`.  A profile maps each key
 * it sets to a value; a read of a key that is not set gives the zero value of
 * the type the code asks for ("", false or a zero duration), exactly as
 * viper's GetString, GetBool and GetDuration do.
 */
module ProfileStore {

  /** A value held under one key, already of the kind the code reads it as. */
  datatype Value = Text(text: string) | Flag(flag: bool) | Duration(nanos: int)

  /** The keys one profile sets. */
  type Entry = map<string, Value>

  /** Profile name to its entry. */
  type Store = map<string, Entry>

  function EntryOf(store: Store, name: string): (e: Entry)
    ensures name !in store ==> e == map[]
  {
    if name in store then store[name] else map[]
  }

  /** viper.IsSet(name + "." + key): the key is present, whatever its value. */
  predicate IsSet(store: Store, name: string, key: string)
  {
    key in EntryOf(store, name)
  }

  /** viper.GetString(name + "." + key). */
  function GetString(store: Store, name: string, key: string): (s: string)
    ensures !IsSet(store, name, key) ==> s == ""
    ensures IsSet(store, name, key) && EntryOf(store, name)[key].Text? ==> s == EntryOf(store, name)[key].text
  {
    var e := EntryOf(store, name);
    if key in e && e[key].Text? then e[key].text else ""
  }

  /** viper.GetBool(name + "." + key). */
  function GetBool(store: Store, name: string, key: string): (b: bool)
    ensures !IsSet(store, name, key) ==> !b
    ensures IsSet(store, name, key) && EntryOf(store, name)[key].Flag? ==> b == EntryOf(store, name)[key].flag
  {
    var e := EntryOf(store, name);
    key in e && e[key].Flag? && e[key].flag
  }

  /** viper.GetDuration(name + "." + key), in nanoseconds. */
  function GetDuration(store: Store, name: string, key: string): (d: int)
    ensures !IsSet(store, name, key) ==> d == 0
    ensures IsSet(store, name, key) && EntryOf(store, name)[key].Duration? ==> d == EntryOf(store, name)[key].nanos
  {
    var e := EntryOf(store, name);
    if key in e && e[key].Duration? then e[key].nanos else 0
  }
}
