/** What xmltodict leaves under an element name that may repeat: a single
    child becomes a dict, several become a list, and `.get(name, [])` gives
    the empty list when there is none. The page turns all three into a list
    before iterating. */
module XmlLists {

  datatype Children<T> = Absent | One(item: T) | Many(items: seq<T>)

  /** `if isinstance(x, dict): x = [x]`, applied to the result of `.get(name, [])`. */
  function AsList<T>(c: Children<T>): (r: seq<T>)
    ensures c.Absent? ==> r == []
    ensures c.One? ==> r == [c.item]
    ensures c.Many? ==> r == c.items
  {
    match c
    case Absent => []
    case One(x) => [x]
    case Many(xs) => xs
  }
}
