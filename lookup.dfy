/** `instances.find(i => i.name === target)`: the first instance with exactly the target name. */
module Lookup {
  import opened Wrappers
  import opened Gateway

  /** Position of the first instance named `name`, or `|instances|` when there is none. */
  function FirstNamed(instances: seq<Instance>, name: string): (k: nat)
    ensures k <= |instances|
    ensures forall j :: 0 <= j < k ==> instances[j].name != name
    ensures k < |instances| ==> instances[k].name == name
  {
    if instances == [] || instances[0].name == name then 0
    else 1 + FirstNamed(instances[1..], name)
  }

  function Find(instances: seq<Instance>, name: string): (found: Option<Instance>)
    ensures found.None? <==> forall j :: 0 <= j < |instances| ==> instances[j].name != name
    ensures found.Some? ==> found.value.name == name
    ensures found.Some? ==>
      exists k :: 0 <= k < |instances| && instances[k] == found.value &&
        forall j :: 0 <= j < k ==> instances[j].name != name
  {
    var k := FirstNamed(instances, name);
    if k < |instances| then Some(instances[k]) else None
  }

  /** Once a match is found, whatever follows it (duplicates included) is ignored. */
  lemma FindIgnoresLaterEntries(front: seq<Instance>, back: seq<Instance>, name: string)
    requires Find(front, name).Some?
    ensures Find(front + back, name) == Find(front, name)
  {
    var k := FirstNamed(front, name);
    var k' := FirstNamed(front + back, name);
    assert (front + back)[k] == front[k];
  }

  /** Entries with other names never change the outcome. */
  lemma FindSkipsOtherNames(front: seq<Instance>, back: seq<Instance>, name: string)
    requires forall j :: 0 <= j < |front| ==> front[j].name != name
    ensures Find(front + back, name) == Find(back, name)
  {
    var k := FirstNamed(back, name);
    var k' := FirstNamed(front + back, name);
    if k < |back| {
      assert (front + back)[|front| + k] == back[k];
    }
    if |front| <= k' < |front + back| {
      assert (front + back)[k'] == back[k' - |front|];
    }
  }
}
