/** The browser's address: `window.location.href` and the router's location
    are one place here, since both decide which page is shown. */
module Browser {

  class Location {
    var path: string

    constructor(path: string)
      ensures this.path == path
    {
      this.path := path;
    }

    /** `navigate(to)` or `window.location.href = to`. */
    method Navigate(to: string)
      modifies this
      ensures path == to
    {
      path := to;
    }
  }
}
