/**
 * What the collection-contents endpoint answers, fixed for the length of a
 * run: for each collection ID the answers to page 1, 2, ... in order (a
 * decoded page, or the error of fetching or decoding it). A request for a
 * collection or page the catalog does not list fails.
 */
module Catalog {
  import opened Wrappers

  type Catalog<P> = map<string, seq<Result<P>>>

  /** The answer to a request for page `pageNo` of collection `id`. */
  function Page<P>(cat: Catalog<P>, id: string, pageNo: int): (r: Result<P>)
    ensures r.Ok? ==> id in cat && 1 <= pageNo <= |cat[id]| && r == cat[id][pageNo - 1]
  {
    if id in cat && 1 <= pageNo <= |cat[id]| then cat[id][pageNo - 1] else Err("no such page")
  }

  /** How many further pages the catalog lists for `id` from `pageNo` on: what bounds a page recursion. */
  function PagesLeft<P>(cat: Catalog<P>, id: string, pageNo: int): nat
  {
    if id in cat && pageNo <= |cat[id]| then |cat[id]| - pageNo + 1 else 0
  }

  /** The collections not visited yet: what bounds a traversal. */
  function Unvisited<P>(cat: Catalog<P>, visited: set<string>): set<string>
  {
    cat.Keys - visited
  }

  /** A subset is no larger than its superset. */
  lemma {:induction false} SubsetSize<T>(a: set<T>, b: set<T>)
    requires a <= b
    ensures |a| <= |b|
    decreases a
  {
    if a != {} {
      var x :| x in a;
      SubsetSize(a - {x}, b - {x});
    }
  }

  /** Marking a listed, unvisited collection leaves fewer to visit. */
  lemma MarkShrinks<P>(cat: Catalog<P>, visited: set<string>, id: string)
    requires id in cat && id !in visited
    ensures |Unvisited(cat, visited + {id})| < |Unvisited(cat, visited)|
  {
    assert Unvisited(cat, visited + {id}) <= Unvisited(cat, visited) - {id};
    SubsetSize(Unvisited(cat, visited + {id}), Unvisited(cat, visited) - {id});
  }

  /** Visiting more never leaves more to visit. */
  lemma MoreVisitedFewerLeft<P>(cat: Catalog<P>, visited: set<string>, more: set<string>)
    requires visited <= more
    ensures |Unvisited(cat, more)| <= |Unvisited(cat, visited)|
  {
    SubsetSize(Unvisited(cat, more), Unvisited(cat, visited));
  }

  /** The two maps of IDs a traversal marks as it goes, shared by every level of its recursion. */
  class Visited {
    var assets: set<string>
    var collections: set<string>

    constructor(assets: set<string>, collections: set<string>)
      ensures this.assets == assets && this.collections == collections
    {
      this.assets := assets;
      this.collections := collections;
    }
  }
}
