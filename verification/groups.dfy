/**
 * `Groups`: the ordered list of group-by column names a query carries.
 * `groupBy` appends in place; no name is validated here.
 */
module Grouping {

  class Groups {
    var groups: seq<string>

    /** `new Groups(names...)`: a fresh list holding the names in argument order. */
    constructor (groupBy: seq<string>)
      ensures groups == groupBy
    {
      groups := groupBy;
    }

    /** `Groups.by(names...)`. */
    static method By(groupBy: seq<string>) returns (g: Groups)
      ensures fresh(g) && g.groups == groupBy
    {
      g := new Groups(groupBy);
    }

    /** `groupBy(name)`: appends one name at the end and returns the same object. */
    method GroupBy(name: string) returns (self: Groups)
      modifies this
      ensures self == this
      ensures groups == old(groups) + [name]
      ensures NotEmpty()
    {
      groups := groups + [name];
      self := this;
    }

    /** `getGroups()`: the names in the order they were given and appended. */
    function GetGroups(): (r: seq<string>)
      reads this
      ensures r == groups
    {
      groups
    }

    /** `notEmpty()`: at least one name. */
    predicate NotEmpty()
      reads this
      ensures NotEmpty() <==> |groups| > 0
    {
      groups != []
    }
  }
}
