/**
 * The `fieldErrors` record the student profile and change-password routes
 * build from a failed validation: each issue's message is pushed onto the
 * list of its field, and the fields keep the order in which they first
 * appear.
 */
module FieldErrors {
  import opened Common

  /** `Record<string, string[]>`: the keys in insertion order and the list under each key. */
  datatype FieldErrorMap = FieldErrorMap(fields: seq<string>, messages: map<string, seq<string>>)

  /** The messages of the issues on `field`, in issue order. */
  function MessagesAt(issues: seq<Issue>, field: string): (ms: seq<string>)
    ensures |ms| <= |issues|
    ensures ms == [] <==> forall k :: 0 <= k < |issues| ==> issues[k].path != field
    decreases |issues|
  {
    if |issues| == 0 then []
    else
      var last := issues[|issues| - 1];
      MessagesAt(issues[..|issues| - 1], field) + (if last.path == field then [last.message] else [])
  }

  /** The fields in the order they first appear. */
  function FirstSeen(issues: seq<Issue>): (fields: seq<string>)
    ensures forall f :: f in fields <==> exists k :: 0 <= k < |issues| && issues[k].path == f
    ensures NoDuplicates(fields)
    decreases |issues|
  {
    if |issues| == 0 then []
    else
      var prefix := issues[..|issues| - 1];
      var fs := FirstSeen(prefix);
      var p := issues[|issues| - 1].path;
      assert forall k :: 0 <= k < |prefix| ==> prefix[k] == issues[k];
      if p in fs then fs else fs + [p]
  }

  /** The grouping the loop builds, stated field by field. */
  function Grouped(issues: seq<Issue>): FieldErrorMap {
    var fields := FirstSeen(issues);
    FieldErrorMap(fields, map f | f in fields :: MessagesAt(issues, f))
  }

  /** `validation.error.errors.forEach(...)`: create the list on first use, then push. */
  method CollectFieldErrors(issues: seq<Issue>) returns (errors: FieldErrorMap)
    ensures errors == Grouped(issues)
  {
    var fields: seq<string> := [];
    var messages: map<string, seq<string>> := map[];
    var i := 0;
    while i < |issues|
      invariant 0 <= i <= |issues|
      invariant Collected(issues, i, fields, messages)
    {
      CollectedStep(issues, i, fields, messages);
      var field := issues[i].path;
      var list: seq<string> := [];
      if field in messages {
        list := messages[field];
      } else {
        fields := fields + [field];
      }
      messages := messages[field := list + [issues[i].message]];
      i := i + 1;
    }
    CollectedAll(issues, fields, messages);
    errors := FieldErrorMap(fields, messages);
  }

  /** The loop invariant: after `i` issues, the fields seen so far and each one's messages. */
  ghost predicate Collected(issues: seq<Issue>, i: nat, fields: seq<string>, messages: map<string, seq<string>>) {
    && i <= |issues|
    && fields == FirstSeen(issues[..i])
    && (forall f :: f in messages <==> f in fields)
    && (forall f :: f in messages ==> messages[f] == MessagesAt(issues[..i], f))
  }

  lemma CollectedStep(issues: seq<Issue>, i: nat, fields: seq<string>, messages: map<string, seq<string>>)
    requires i < |issues| && Collected(issues, i, fields, messages)
    ensures var field := issues[i].path;
      var list := if field in messages then messages[field] else [];
      Collected(issues, i + 1, if field in messages then fields else fields + [field],
                messages[field := list + [issues[i].message]])
  {
    CollectStep(issues, i);
  }

  lemma CollectedAll(issues: seq<Issue>, fields: seq<string>, messages: map<string, seq<string>>)
    requires Collected(issues, |issues|, fields, messages)
    ensures FieldErrorMap(fields, messages) == Grouped(issues)
  {
    assert issues[..|issues|] == issues;
  }

  /** One more issue pushes its message onto its field's list, creating the list if needed. */
  lemma GroupedStep(issues: seq<Issue>)
    requires |issues| > 0
    ensures var g := Grouped(issues[..|issues| - 1]).messages;
      var last := issues[|issues| - 1];
      && (forall f :: f in Grouped(issues).messages <==> f in g || f == last.path)
      && (forall f :: f in Grouped(issues).messages ==>
            Grouped(issues).messages[f]
              == if f == last.path then (if f in g then g[f] else []) + [last.message] else g[f])
  {
    var prefix := issues[..|issues| - 1];
    assert forall k :: 0 <= k < |prefix| ==> prefix[k] == issues[k];
    assert issues[|issues| - 1].path !in FirstSeen(prefix) ==> MessagesAt(prefix, issues[|issues| - 1].path) == [];
  }

  /** The loop's step, stated on the prefixes it has read. */
  lemma CollectStep(issues: seq<Issue>, i: nat)
    requires i < |issues|
    ensures var field := issues[i].path;
      && FirstSeen(issues[..i + 1])
           == (if field in FirstSeen(issues[..i]) then FirstSeen(issues[..i]) else FirstSeen(issues[..i]) + [field])
      && (forall f :: MessagesAt(issues[..i + 1], f)
                        == MessagesAt(issues[..i], f) + (if f == field then [issues[i].message] else []))
      && (field !in FirstSeen(issues[..i]) ==> MessagesAt(issues[..i], field) == [])
  {
    assert issues[..i + 1][..i] == issues[..i];
  }

  /** Sum of the list lengths over the given keys. */
  function CountOver(fields: seq<string>, messages: map<string, seq<string>>): nat
    requires forall f :: f in fields ==> f in messages
    decreases |fields|
  {
    if |fields| == 0 then 0 else |messages[fields[0]]| + CountOver(fields[1..], messages)
  }

  /** Raising one listed key's length by one raises the sum by one. */
  lemma {:induction false} CountOverBump(fields: seq<string>, before: map<string, seq<string>>,
                                         after: map<string, seq<string>>, field: string)
    requires NoDuplicates(fields)
    requires forall f :: f in fields ==> f in before && f in after
    requires forall f :: f in fields && f != field ==> |after[f]| == |before[f]|
    requires field in fields ==> |after[field]| == |before[field]| + 1
    ensures CountOver(fields, after) == CountOver(fields, before) + (if field in fields then 1 else 0)
    decreases |fields|
  {
    if |fields| > 0 {
      assert field in fields[1..] ==> fields[0] != field;
      CountOverBump(fields[1..], before, after, field);
    }
  }

  /** Appending a key adds its list's length. */
  lemma {:induction false} CountOverAppend(fields: seq<string>, field: string, messages: map<string, seq<string>>)
    requires forall f :: f in fields ==> f in messages
    requires field in messages
    ensures CountOver(fields + [field], messages) == CountOver(fields, messages) + |messages[field]|
    decreases |fields|
  {
    if |fields| > 0 {
      assert (fields + [field])[1..] == fields[1..] + [field];
      CountOverAppend(fields[1..], field, messages);
    }
  }

  /** Every issue's message is kept: the lists together hold exactly as many messages as there were issues. */
  lemma {:induction false} NoMessageLost(issues: seq<Issue>)
    ensures CountOver(Grouped(issues).fields, Grouped(issues).messages) == |issues|
    decreases |issues|
  {
    if |issues| > 0 {
      NoMessageLost(issues[..|issues| - 1]);
      CountStep(issues);
    }
  }

  /** One more issue adds one message to the lists. */
  lemma CountStep(issues: seq<Issue>)
    requires |issues| > 0
    ensures var prefix := issues[..|issues| - 1];
      CountOver(Grouped(issues).fields, Grouped(issues).messages)
        == CountOver(Grouped(prefix).fields, Grouped(prefix).messages) + 1
  {
    var prefix := issues[..|issues| - 1];
    var last := issues[|issues| - 1];
    GroupedStep(issues);
    var fs := FirstSeen(prefix);
    assert FirstSeen(issues) == if last.path in fs then fs else fs + [last.path];
    if last.path in fs {
      CountOverBump(fs, Grouped(prefix).messages, Grouped(issues).messages, last.path);
    } else {
      NewFieldCount(issues);
    }
  }

  lemma NewFieldCount(issues: seq<Issue>)
    requires |issues| > 0 && issues[|issues| - 1].path !in FirstSeen(issues[..|issues| - 1])
    ensures var prefix := issues[..|issues| - 1];
      CountOver(Grouped(issues).fields, Grouped(issues).messages)
        == CountOver(Grouped(prefix).fields, Grouped(prefix).messages) + 1
  {
    var prefix := issues[..|issues| - 1];
    var last := issues[|issues| - 1];
    GroupedStep(issues);
    var fs := FirstSeen(prefix);
    var before := Grouped(prefix).messages;
    var after := Grouped(issues).messages;
    var bumped := map f | f in fs :: after[f];
    CountOverBump(fs, before, bumped, last.path);
    CountOverUnchanged(fs, bumped, after);
    CountOverAppend(fs, last.path, after);
    assert MessagesAt(prefix, last.path) == [];
  }

  /** The sum over some keys reads only those keys. */
  lemma {:induction false} CountOverUnchanged(fields: seq<string>, m1: map<string, seq<string>>, m2: map<string, seq<string>>)
    requires forall f :: f in fields ==> f in m1 && f in m2 && m1[f] == m2[f]
    ensures CountOver(fields, m1) == CountOver(fields, m2)
    decreases |fields|
  {
    if |fields| > 0 {
      CountOverUnchanged(fields[1..], m1, m2);
    }
  }

  /** A field has a list exactly when some issue is on it, and the list is never empty. */
  lemma ListedIffReported(issues: seq<Issue>, field: string)
    ensures field in Grouped(issues).messages <==> exists k :: 0 <= k < |issues| && issues[k].path == field
    ensures field in Grouped(issues).messages ==> Grouped(issues).messages[field] != []
  {
  }

  /** Messages on one field stay in the order the issues were produced. */
  lemma {:induction false} MessagesInOrder(issues: seq<Issue>, field: string, a: nat, b: nat)
    requires a < b < |issues| && issues[a].path == field && issues[b].path == field
    ensures exists i, j :: (0 <= i < j < |MessagesAt(issues, field)|
      && MessagesAt(issues, field)[i] == issues[a].message && MessagesAt(issues, field)[j] == issues[b].message)
    decreases |issues|
  {
    var prefix := issues[..|issues| - 1];
    if b < |issues| - 1 {
      MessagesInOrder(prefix, field, a, b);
      var i, j :| 0 <= i < j < |MessagesAt(prefix, field)|
        && MessagesAt(prefix, field)[i] == prefix[a].message && MessagesAt(prefix, field)[j] == prefix[b].message;
      assert MessagesAt(issues, field)[i] == issues[a].message && MessagesAt(issues, field)[j] == issues[b].message;
    } else {
      var i := MessageIndex(prefix, field, a);
      var ms := MessagesAt(issues, field);
      assert ms == MessagesAt(prefix, field) + [issues[b].message];
      assert ms[i] == issues[a].message && ms[|ms| - 1] == issues[b].message;
    }
  }

  /** The position of an issue's message in its field's list. */
  lemma {:induction false} MessageIndex(issues: seq<Issue>, field: string, a: nat) returns (i: nat)
    requires a < |issues| && issues[a].path == field
    ensures i < |MessagesAt(issues, field)| && MessagesAt(issues, field)[i] == issues[a].message
    decreases |issues|
  {
    var prefix := issues[..|issues| - 1];
    if a == |issues| - 1 {
      i := |MessagesAt(issues, field)| - 1;
    } else {
      i := MessageIndex(prefix, field, a);
    }
  }
}
