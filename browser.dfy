/**
 * The parts of the browser that the hooks read or change, made explicit: the
 * `window` (absent while rendering on a server), the classes on the document's
 * root element, and `localStorage`.
 */
module Browser {
  import opened Wrappers

  /** No `window` at all, or a window with its width and the answers of the media queries the code asks. */
  datatype Env = NoWindow | Window(innerWidth: int, reducedMotion: bool, prefersDark: bool)

  /** `document.documentElement.classList`. */
  class Document {
    var rootClasses: set<string>

    constructor (classes: set<string>)
      ensures rootClasses == classes
    {
      rootClasses := classes;
    }
  }

  /** `classList.add(name)` when `present`, `classList.remove(name)` otherwise. */
  function WithClass(classes: set<string>, name: string, present: bool): (r: set<string>)
    ensures name in r <==> present
    ensures forall c :: c != name ==> (c in r <==> c in classes)
  {
    if present then classes + {name} else classes - {name}
  }

  /** `window.localStorage`. */
  class LocalStorage {
    var items: map<string, string>

    constructor (items: map<string, string>)
      ensures this.items == items
    {
      this.items := items;
    }

    /** `getItem`: the stored string, or `null` (here `None`). */
    function GetItem(key: string): (r: Option<string>)
      reads this
      ensures r.Some? <==> key in items
      ensures r.Some? ==> r.value == items[key]
    {
      if key in items then Some(items[key]) else None
    }
  }
}
