/**
 * commands/help.js: /help sorts the registered commands into six buckets by
 * the part of their name before the first `-`, then shows either one bucket
 * or a summary of all six.
 */
module HelpCommand {
  import opened Common
  import opened Text
  import opened Index

  /** The buckets, in the order the summary lists them. */
  const Categories: seq<string> := ["moderation", "ticket", "welcome", "utility", "fun", "info"]

  /** `name.split('-')[0]`: the text before the first `-`, or the whole name. */
  function FirstSegment(name: string): (r: string)
    ensures StartsWith(name, r) && '-' !in r
    ensures |r| == |name| || name[|r|] == '-'
  {
    if name == [] || name[0] == '-' then []
    else [name[0]] + FirstSegment(name[1..])
  }

  /** `name.split('-')[0] || 'utility'`. */
  function CategoryOf(name: string): (r: string)
    ensures r != ""
    ensures FirstSegment(name) != "" ==> r == FirstSegment(name)
    ensures FirstSegment(name) == "" ==> r == "utility"
  {
    if FirstSegment(name) == "" then "utility" else FirstSegment(name)
  }

  /** The bucket a command goes to: its category if that is one of the six, otherwise utility. */
  function BucketOf(name: string): (r: string)
    ensures r in Categories
    ensures r == CategoryOf(name) || (CategoryOf(name) !in Categories && r == "utility")
  {
    if CategoryOf(name) in Categories then CategoryOf(name) else "utility"
  }

  /** The commands of one bucket, in registry order. */
  function InBucket(cmds: seq<CommandData>, cat: string): (r: seq<CommandData>)
    ensures |r| <= |cmds|
    ensures forall c | c in r :: c in cmds && BucketOf(c.name) == cat
    ensures forall c | c in cmds && BucketOf(c.name) == cat :: c in r
    decreases |cmds|
  {
    if cmds == [] then []
    else
      var last := cmds[|cmds| - 1];
      var front := InBucket(cmds[..|cmds| - 1], cat);
      assert forall c | c in cmds :: c in cmds[..|cmds| - 1] || c == last;
      if BucketOf(last.name) == cat then front + [last] else front
  }

  /** One step of the fold: the last command joins the bucket of the rest, or not. */
  lemma InBucketLast(s: seq<CommandData>, cat: string)
    requires s != []
    ensures InBucket(s, cat) == InBucket(s[..|s| - 1], cat) + if BucketOf(s[|s| - 1].name) == cat then [s[|s| - 1]] else []
  {
  }

  /**
   * Bucketing keeps registry order and multiplicity: the bucket of a registry
   * is the bucket of its first part followed by the bucket of the rest.
   */
  lemma {:induction false} InBucketAppend(a: seq<CommandData>, b: seq<CommandData>, cat: string)
    ensures InBucket(a + b, cat) == InBucket(a, cat) + InBucket(b, cat)
    decreases |b|
  {
    if b == [] {
      assert a + b == a;
    } else {
      var front := b[..|b| - 1];
      var x := b[|b| - 1];
      var tail := if BucketOf(x.name) == cat then [x] else [];
      assert InBucket(a + b, cat) == InBucket(a + front, cat) + tail by {
        assert (a + b)[..|a + b| - 1] == a + front;
        assert (a + b)[|a + b| - 1] == x;
        InBucketLast(a + b, cat);
      }
      assert InBucket(b, cat) == InBucket(front, cat) + tail by {
        InBucketLast(b, cat);
      }
      InBucketAppend(a, front, cat);
    }
  }

  /** A single command makes a bucket of itself exactly when its name maps to that bucket. */
  lemma InBucketSingle(c: CommandData, cat: string)
    ensures InBucket([c], cat) == if BucketOf(c.name) == cat then [c] else []
  {
    InBucketLast([c], cat);
    assert [c][..0] == [];
  }

  /** Each command is listed in the bucket of its name and in no other. */
  lemma ExactlyOneBucket(cmds: seq<CommandData>, c: CommandData, cat: string)
    requires c in cmds
    ensures c in InBucket(cmds, cat) <==> cat == BucketOf(c.name)
  {
  }

  function BucketSizes(cmds: seq<CommandData>): nat
  {
    |InBucket(cmds, "moderation")| + |InBucket(cmds, "ticket")| + |InBucket(cmds, "welcome")|
    + |InBucket(cmds, "utility")| + |InBucket(cmds, "fun")| + |InBucket(cmds, "info")|
  }

  /** No command is lost or counted twice: the six bucket sizes add up to the registry size. */
  lemma {:induction false} BucketSizesSum(cmds: seq<CommandData>)
    ensures BucketSizes(cmds) == |cmds|
    decreases |cmds|
  {
    if cmds != [] {
      BucketSizesSum(cmds[..|cmds| - 1]);
    }
  }

  /**
   * The `forEach` that fills the six local arrays (commands/help.js:24-40):
   * each bucket ends up holding exactly its commands, in registry order.
   */
  method Categorize(commands: seq<CommandData>) returns (buckets: map<string, seq<CommandData>>)
    ensures forall cat | cat in Categories :: cat in buckets && buckets[cat] == InBucket(commands, cat)
  {
    buckets := map["moderation" := [], "ticket" := [], "welcome" := [], "utility" := [], "fun" := [], "info" := []];
    var i := 0;
    while i < |commands|
      invariant 0 <= i <= |commands|
      invariant forall cat | cat in Categories :: cat in buckets && buckets[cat] == InBucket(commands[..i], cat)
    {
      var b := BucketOf(commands[i].name);
      assert commands[..i + 1][..i] == commands[..i];
      buckets := buckets[b := buckets[b] + [commands[i]]];
      i := i + 1;
    }
    assert commands[..|commands|] == commands;
  }

  /** One line of a category page: `/name` and the description, or a placeholder when it is empty. */
  datatype HelpEntry = HelpEntry(command: string, text: string)

  function EntryFor(c: CommandData): (r: HelpEntry)
    ensures r.command == "/" + c.name
    ensures r.text != ""
    ensures c.description != "" ==> r.text == c.description
  {
    HelpEntry("/" + c.name, if c.description != "" then c.description else "Sin descripción")
  }

  /** One field of the summary: the bucket, its size, its first three names and how many more there are. */
  datatype OverviewField = OverviewField(category: string, count: nat, shown: seq<string>, more: Option<nat>)

  function FieldFor(cat: string, bucket: seq<CommandData>): (r: OverviewField)
    ensures r.category == cat && r.count == |bucket|
    ensures |r.shown| == if |bucket| < 3 then |bucket| else 3
    ensures forall i | 0 <= i < |r.shown| :: r.shown[i] == bucket[i].name
    ensures r.more.Some? <==> |bucket| > 3
    ensures r.more.Some? ==> r.more.value + 3 == |bucket|
  {
    var firstThree := if |bucket| <= 3 then bucket else bucket[..3];
    OverviewField(cat, |bucket|, Names(firstThree), if |bucket| > 3 then Some(|bucket| - 3) else None)
  }

  datatype HelpView =
    | CategoryPage(category: string, entries: seq<HelpEntry>, total: nat)
    | Overview(fields: seq<OverviewField>, total: nat)

  /**
   * /help: a requested category that is one of the six shows that bucket with
   * its size as the total; otherwise the summary of all six buckets, with the
   * size of the whole registry as the total.
   */
  method Help(reg: Registry, requested: Option<string>) returns (view: HelpView)
    ensures Truthy(requested) && requested.value in Categories ==>
              var bucket := InBucket(reg.entries, requested.value);
              && view.CategoryPage?
              && view.category == requested.value
              && view.total == |bucket| == |view.entries|
              && forall i | 0 <= i < |bucket| :: view.entries[i] == EntryFor(bucket[i])
    ensures !(Truthy(requested) && requested.value in Categories) ==>
              && view.Overview?
              && view.total == |reg.entries|
              && |view.fields| == |Categories|
              && forall i | 0 <= i < |Categories| ::
                   view.fields[i] == FieldFor(Categories[i], InBucket(reg.entries, Categories[i]))
  {
    var buckets := Categorize(reg.entries);
    if Truthy(requested) && requested.value in Categories {
      var bucket := buckets[requested.value];
      var entries := seq(|bucket|, i requires 0 <= i < |bucket| => EntryFor(bucket[i]));
      return CategoryPage(requested.value, entries, |bucket|);
    }
    var fields := seq(|Categories|, i requires 0 <= i < |Categories| => FieldFor(Categories[i], buckets[Categories[i]]));
    view := Overview(fields, |reg.entries|);
  }

  /** The category of a name is everything before its first `-`. */
  lemma FirstSegmentAt(name: string, k: nat)
    requires k < |name| && name[k] == '-' && '-' !in name[..k]
    ensures FirstSegment(name) == name[..k]
  {
    var r := FirstSegment(name);
    assert forall j | 0 <= j < |r| :: name[j] == r[j] && r[j] != '-';
    assert forall j | 0 <= j < k :: name[j] == name[..k][j] && name[j] != '-';
  }

  /** The Spanish ticket-setup command is filed under utility, not ticket. */
  lemma SpanishTicketSetupInUtility()
    ensures BucketOf("setup-tickets") == "utility"
  {
    var name := "setup-tickets";
    assert name[..5] == "setup";
    FirstSegmentAt(name, 5);
  }
}
