/** The linked list of tokens of the mini shell (list.c), and the argument arrays made from it. */
module TokenList {

  datatype Order = HEAD | TAIL

  /** An entry of a char** argument vector: a token, or the NULL that ends it. */
  datatype Arg = Word(token: string) | Null

  /** The argument vector of a non-empty command; list_to_cmd gives no vector for an empty one. */
  function Vector(tokens: seq<string>): seq<Arg> {
    if tokens == [] then [] else seq(|tokens| + 1, i requires 0 <= i => if i < |tokens| then Word(tokens[i]) else Null)
  }

  class Node {
    var token: string
    var next: Node?

    constructor (token: string)
      ensures this.token == token && this.next == null
    {
      this.token, this.next := token, null;
    }
  }

  class List {
    var first: Node?
    var last: Node?
    var len: nat
    ghost var nodes: seq<Node>

    /** The nodes hang together from first to last, each once. */
    ghost predicate Valid()
      reads this, nodes
    {
      && |nodes| == len
      && (forall i, j :: 0 <= i < j < |nodes| ==> nodes[i] != nodes[j])
      && (first == if nodes == [] then null else nodes[0])
      && (last == if nodes == [] then null else nodes[|nodes| - 1])
      && (forall i {:trigger nodes[i].next} :: 0 <= i < |nodes| - 1 ==> nodes[i].next == nodes[i + 1])
      && (nodes != [] ==> nodes[|nodes| - 1].next == null)
    }

    ghost function Tokens(): (t: seq<string>)
      reads this, nodes
      ensures |t| == |nodes|
    {
      seq(|nodes|, i requires 0 <= i < |nodes| reads this, nodes => nodes[i].token)
    }

    /** list_create */
    constructor ()
      ensures Valid() && Tokens() == [] && nodes == []
    {
      first, last, len, nodes := null, null, 0, [];
    }

    /** list_add */
    method Add(token: string, pos: Order)
      requires Valid()
      modifies this, nodes
      ensures Valid() && Tokens() == if pos == HEAD then [token] + old(Tokens()) else old(Tokens()) + [token]
      ensures forall k :: 0 <= k < |nodes| ==> nodes[k] in old(nodes) || fresh(nodes[k])
    {
      var node := new Node(token);
      if first == null {
        first, last := node, node;
        nodes := [node];
      } else if pos == HEAD {
        node.next := first;
        first := node;
        nodes := [node] + nodes;
      } else {
        last.next := node;
        last := node;
        nodes := nodes + [node];
      }
      len := len + 1;
    }

    /** list_destroy: the walk of list_destroy_aux frees every node exactly once, and reads no node it has
        freed; `freed` is the order in which it does. */
    method Destroy() returns (ghost freed: seq<Node>)
      requires Valid()
      modifies this
      ensures Valid() && nodes == [] && Tokens() == []
      ensures freed == old(nodes)
    {
      freed := [];
      if first != null {
        var doomed: Node := first;
        var aux := doomed.next;
        ghost var k := 0;
        while aux != null
          invariant Valid() && nodes == old(nodes)
          invariant 0 <= k < |nodes| && doomed == nodes[k] && aux == nodes[k].next
          invariant freed == nodes[..k]
          decreases |nodes| - k
        {
          assert aux == nodes[k + 1] && aux !in freed;
          freed := freed + [doomed];
          assert freed == nodes[..k + 1];
          doomed := aux;
          assert aux !in freed;
          aux := aux.next;
          k := k + 1;
        }
        assert k == |nodes| - 1;
        freed := freed + [doomed];
        first, last, len := null, null, 0;
        nodes := [];
      }
    }

    /** list_to_cmd: the tokens in order, ended by NULL; no array at all for an empty list. */
    method ToCmd() returns (cmd: array?<Arg>)
      requires Valid()
      ensures nodes == [] ==> cmd == null
      ensures nodes != [] ==> cmd != null && fresh(cmd) && cmd[..] == Vector(Tokens())
    {
      if len == 0 {
        return null;
      }
      var node := first;
      cmd := new Arg[len + 1](_ => Null);
      for i := 0 to len
        invariant node == if i < len then nodes[i] else null
        invariant forall j :: 0 <= j < i ==> cmd[j] == Word(Tokens()[j])
      {
        cmd[i] := Word(node.token);
        node := node.next;
      }
      cmd[len] := Null;
    }
  }
}
