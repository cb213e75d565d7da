/** Identities of physical tree nodes. */
module Nodes {
  /** What a new node is for, at one stage of a ticket's descent. */
  datatype Role = WholeNode | LeftHalf | RightHalf | WholeLeaf | LeftLeaf | RightLeaf | Root

  /** A node of the initial tree, or one created by a ticket. */
  datatype Id = Built(index: nat) | New(ticket: nat, stage: nat, role: Role)
  {
    /** The version stamped on the node. */
    function Version(): nat {
      if New? then ticket else 0
    }
  }
}
