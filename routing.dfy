/**
 * Hash routing of the single-page application (src/App.jsx): the `route`
 * state holds the location hash, and the page shown is looked up in the
 * `routes` table, with the home page for any hash the table lacks.
 */
module Routing {

  datatype Page = Home | CV | Project

  /** The `routes` table. */
  const Routes: map<string, Page> :=
    map["" := Home, "#" := Home, "#home" := Home, "#cv" := CV, "#project" := Project]

  /**
   * `routes[route] || <Home />`: every hash resolves to a page; only "#cv"
   * and "#project" leave the home page.
   */
  function Resolve(hash: string): (p: Page)
    ensures p == CV <==> hash == "#cv"
    ensures p == Project <==> hash == "#project"
    ensures p == Home <==> hash != "#cv" && hash != "#project"
  {
    if hash in Routes then Routes[hash] else Home
  }

  /** The app's route state. */
  class Router {
    /** The location hash last seen. */
    var route: string

    /** `useState(window.location.hash)`. */
    constructor (initialHash: string)
      ensures route == initialHash
    {
      route := initialHash;
    }

    /** The `hashchange` handler: the route becomes the new hash. */
    method OnHashChange(newHash: string)
      modifies this
      ensures route == newHash
    {
      route := newHash;
    }

    /** The page rendered for the current route. */
    function CurrentPage(): (p: Page)
      reads this
      ensures p == Home <==> route != "#cv" && route != "#project"
    {
      Resolve(route)
    }
  }
}
