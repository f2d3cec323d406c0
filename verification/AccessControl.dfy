/** The connection broker that bounds the number of connections of all streams (streaming/acl.go). */
module AccessControl {

  /** A limit of 0 means that there is none. */
  datatype Control = Control(max: nat, connections: nat, inhibit: bool)
  {
    predicate Admits()
    {
      !inhibit && (max == 0 || connections < max)
    }

    /** The counter after an `Accept`, whatever its answer. */
    function Accepted(): Control
    {
      if Admits() then this.(connections := connections + 1) else this
    }

    /** The counter after a `Release`; a release too many is ignored. */
    function Released(): Control
    {
      if connections > 0 then this.(connections := connections - 1) else this
    }

    predicate WithinLimit()
    {
      max == 0 || connections <= max
    }
  }

  class AccessController {
    const maxconnections: nat
    var connections: nat
    var inhibit: bool

    function View(): Control
      reads this
    {
      Control(maxconnections, connections, inhibit)
    }

    constructor (maxconnections: nat)
      ensures View() == Control(maxconnections, 0, false)
    {
      this.maxconnections := maxconnections;
      connections := 0;
      inhibit := false;
    }

    method SetInhibit(inhibit: bool)
      modifies this
      ensures View() == old(View()).(inhibit := inhibit)
    {
      this.inhibit := inhibit;
    }

    /** Answers whether the limit leaves room, and keeps the counter within it. */
    method Accept() returns (accept: bool)
      modifies this
      ensures accept <==> old(View()).Admits()
      ensures View() == old(View()).Accepted()
      ensures old(View()).WithinLimit() ==> View().WithinLimit()
    {
      accept := false;
      if !inhibit && (maxconnections == 0 || connections < maxconnections) {
        connections := connections + 1;
        accept := true;
      }
    }

    /** Answers whether there was a connection to remove. */
    method Release() returns (removed: bool)
      modifies this
      ensures removed <==> old(View()).connections > 0
      ensures View() == old(View()).Released()
      ensures removed ==> View().connections == old(View()).connections - 1
    {
      removed := false;
      if connections > 0 {
        connections := connections - 1;
        removed := true;
      }
    }
  }
}
