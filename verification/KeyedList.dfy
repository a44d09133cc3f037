/** Lists of keyed entries, searched from the front. */
module KeyedList {
  datatype Entry<+K, +V> = Entry(key: K, body: V)

  /** The first entry with the key, or the end of the list. */
  function IndexOf<K(==), V>(s: seq<Entry<K, V>>, key: K): (i: nat)
    ensures i <= |s|
    ensures i < |s| ==> s[i].key == key
    ensures forall j | 0 <= j < i :: s[j].key != key
  {
    if s == [] || s[0].key == key then 0 else 1 + IndexOf(s[1..], key)
  }
}
