/** crates/crdt-core/src/g_set.rs */
module GSets {

  class GSet<T(==)> {
    var elements: set<T>

    constructor ()
      ensures elements == {}
    {
      elements := {};
    }

    /** Says whether the value was new. */
    method Insert(value: T) returns (added: bool)
      modifies this
      ensures elements == old(elements) + {value}
      ensures added <==> value !in old(elements)
    {
      added := value !in elements;
      elements := elements + {value};
    }

    predicate Contains(value: T)
      reads this
    {
      value in elements
    }

    /** Takes over the other set's elements one by one, in an arbitrary order. */
    method Merge(other: GSet<T>)
      requires this != other
      modifies this
      ensures elements == old(elements) + other.elements
    {
      var todo := other.elements;
      while todo != {}
        invariant todo <= other.elements
        invariant elements == old(elements) + (other.elements - todo)
        decreases todo
      {
        var x :| x in todo;
        elements := elements + {x};
        todo := todo - {x};
      }
    }
  }
}
