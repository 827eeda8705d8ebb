/** The scope kinds of a capability and their wire text. */
module Scopes {
  datatype ScopeType = App | Page

  function Wire(kind: ScopeType): string { if kind.App? then "app" else "page" }
}
