/** The waiting room of mails for one kind of answer: a linked list behind a gate. */
module MailQueues {
  import opened MachineWords
  import opened Mails

  class ListNode {
    var mail: Mail
    var next: ListNode?
    ghost const owner: MailQueue
    ghost const serial: nat

    constructor (mail: Mail, ghost owner: MailQueue, ghost serial: nat)
      ensures this.mail == mail && next == null && this.owner == owner && this.serial == serial
    {
      this.mail := mail;
      this.owner := owner;
      this.serial := serial;
      next := null;
    }
  }

  /** How a sleep on the queue ended. */
  datatype Wait = Ready | TimedOut | Interrupted

  datatype Error = NoError | Invalid | Intr

  function Taken(mail: Option<Mail>): (ms: seq<Mail>)
  {
    if mail.Some? then [mail.value] else []
  }

  class MailQueue {
    var list: ListNode?
    var locked: bool
    ghost var nodes: seq<ListNode>
    ghost var contents: seq<Mail>
    ghost var popped: nat
    ghost const home: nat

    ghost predicate Valid()
      reads this`list, this`nodes, this`contents, this`popped, nodes
      ensures Valid() ==> forall n :: n in nodes ==> n.owner == this
    {
      list == NodeAt(0) && |contents| == |nodes|
      && forall i :: 0 <= i < |nodes| ==>
        nodes[i].next == NodeAt(i + 1) && nodes[i].mail == contents[i]
        && nodes[i].owner == this && nodes[i].serial == popped + i
    }

    ghost function NodeAt(i: nat): (n: ListNode?)
      reads this`nodes
    {
      if i < |nodes| then nodes[i] else null
    }

    /** No node comes back later in the list, and only the last one ends it. */
    lemma Acyclic(i: nat, j: nat)
      requires Valid() && i < j < |nodes|
      ensures nodes[i] != nodes[j] && nodes[i].next != null
    {
    }

    /** A queue none of whose objects changed is as it was. */
    twostate lemma Untouched()
      requires old(Valid()) && unchanged(this) && forall n :: n in old(nodes) ==> unchanged(n)
      ensures Valid()
    {
      assert forall i :: 0 <= i < |nodes| ==> nodes[i] in old(nodes);
    }

    constructor (ghost home: nat)
      ensures Valid() && contents == [] && nodes == [] && locked && this.home == home
    {
      list := null;
      locked := true;
      nodes, contents, popped := [], [], 0;
      this.home := home;
    }

    /** What a sleeper waits for. */
    predicate MailIsAvailable()
      reads this
    {
      list != null || !locked
    }

    /** Walks with the queue's own head pointer, which is put back at the end. */
    method Push(mail: Mail)
      requires Valid()
      modifies this`list, this`nodes, this`contents, this`popped, nodes
      ensures Valid()
      ensures contents == old(contents) + [mail]
      ensures fresh(nodes[|nodes| - 1]) && nodes[..|nodes| - 1] == old(nodes)
      ensures old(list) != null ==> list == old(list)
    {
      var firstPos := list;
      if list == null {
        list := new ListNode(mail, this, popped + |nodes|);
        nodes, contents := [list], [mail];
        return;
      }
      WalkToLast();
      var last := new ListNode(mail, this, popped + |nodes|);
      list.next := last;
      nodes, contents := nodes + [last], contents + [mail];
      list := firstPos;
    }

    /** Moves the head pointer itself to the last node; it is never null on the way. */
    method WalkToLast()
      requires Valid() && nodes != []
      modifies this`list
      ensures list == nodes[|nodes| - 1]
    {
      ghost var k := 0;
      while list.next != null
        invariant 0 <= k < |nodes| && list == nodes[k]
        decreases |nodes| - k
      {
        list := list.next;
        k := k + 1;
      }
    }

    /** Takes the oldest mail away, if there is one. */
    method Pop() returns (mail: Option<Mail>)
      requires Valid()
      modifies this`list, this`nodes, this`contents, this`popped
      ensures Valid()
      ensures old(contents) == Taken(mail) + contents
      ensures mail.None? <==> old(contents) == []
      ensures nodes == old(nodes)[|Taken(mail)|..]
    {
      if list == null {
        return None;
      }
      mail := Some(list.mail);
      list := list.next;
      nodes, contents, popped := nodes[1..], contents[1..], popped + 1;
    }

    /** The bounded sleep and what it reports: a mail that is there always wins over the reason
        for which the sleep ended. */
    method PopTimeout(wait: Wait) returns (mail: Option<Mail>, err: Error)
      requires Valid() && (wait.Ready? ==> MailIsAvailable())
      modifies this`list, this`nodes, this`contents, this`popped
      ensures Valid()
      ensures old(contents) == Taken(mail) + contents
      ensures mail.None? <==> old(contents) == []
      ensures nodes == old(nodes)[|Taken(mail)|..]
      ensures err.NoError? <==> old(contents) != []
      ensures err.Intr? <==> old(contents) == [] && wait.Interrupted?
    {
      err := if wait.TimedOut? then Invalid else if wait.Interrupted? then Intr else NoError;
      mail := Pop();
      err := if mail.Some? then NoError else if err != NoError then err else Invalid;
    }

    method Unlock()
      modifies this`locked
      ensures !locked && Valid() == old(Valid())
    {
      locked := false;
    }

    method Lock()
      modifies this`locked
      ensures locked && Valid() == old(Valid())
    {
      locked := true;
    }

    /** Pops until nothing is left; returns the mails in the order in which they were freed. */
    method Drain() returns (ghost freed: seq<Mail>)
      requires Valid()
      modifies this`list, this`nodes, this`contents, this`popped
      ensures Valid() && contents == [] && nodes == []
      ensures freed == old(contents)
    {
      freed := [];
      var mail := Pop();
      while mail.Some?
        invariant Valid()
        invariant mail.None? ==> nodes == []
        invariant old(contents) == freed + (Taken(mail) + contents)
        decreases |nodes|, mail.Some?
      {
        ghost var rest := contents;
        freed := freed + [mail.value];
        assert old(contents) == freed + rest;
        mail := Pop();
      }
      assert old(contents) == freed;
    }
  }
}
