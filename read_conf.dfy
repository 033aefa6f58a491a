/**
 * `readConf`: folds the sections of a parsed INI file into one flat
 * mapping, a later occurrence of a name overwriting an earlier one, and
 * echoes what it reads to the log unless the process is a client.
 *
 * The INI parser is not part of this model: its output, the sections in
 * order with their (name, value) items in order, is an input. So are the
 * existence of the file and the client flag. Each `Logfile.add` call is
 * recorded as the sequence of its arguments.
 */
module ReadConf {
  import opened Outcomes

  type Item = (string, string)
  type Section = seq<Item>
  type LogCall = seq<string>

  /** The names whose values are never echoed. */
  predicate Redacted(name: string) {
    name == "mail" || name == "pwd"
  }

  /** All items of all sections, in reading order. */
  function Items(sections: seq<Section>): seq<Item> {
    if sections == [] then []
    else Items(sections[..|sections| - 1]) + sections[|sections| - 1]
  }

  /** The mapping after storing every item in order. */
  function Flatten(items: seq<Item>): map<string, string> {
    if items == [] then map[]
    else
      var last := items[|items| - 1];
      Flatten(items[..|items| - 1])[last.0 := last.1]
  }

  /** The echo lines for the items, in order. */
  function Echo(items: seq<Item>): seq<LogCall> {
    if items == [] then []
    else
      var last := items[|items| - 1];
      Echo(items[..|items| - 1]) + (if Redacted(last.0) then [] else [[last.0 + " = " + last.1]])
  }

  /** The whole log of a successful read. */
  function ReadLog(fileName: string, items: seq<Item>, isClient: bool): seq<LogCall> {
    if isClient then [] else [[" ", fileName, ": "]] + Echo(items) + [[" "]]
  }

  /** `readConf` */
  method ReadConf(fileName: string, fileExists: bool, sections: seq<Section>, isClient: bool)
    returns (r: Option<map<string, string>>, log: seq<LogCall>)
    ensures !fileExists ==> r == None && log == []
    ensures fileExists ==> r == Some(Flatten(Items(sections)))
    ensures fileExists ==> log == ReadLog(fileName, Items(sections), isClient)
  {
    if !fileExists {
      return None, [];
    }
    var cDict: map<string, string> := map[];
    log := [];
    if !isClient {
      log := log + [[" ", fileName, ": "]];
    }
    var i := 0;
    while i < |sections|
      invariant 0 <= i <= |sections|
      invariant cDict == Flatten(Items(sections[..i]))
      invariant log == if isClient then [] else [[" ", fileName, ": "]] + Echo(Items(sections[..i]))
    {
      var section := sections[i];
      ghost var before := Items(sections[..i]);
      var j := 0;
      assert before + section[..0] == before;
      while j < |section|
        invariant 0 <= j <= |section|
        invariant cDict == Flatten(before + section[..j])
        invariant log == if isClient then [] else [[" ", fileName, ": "]] + Echo(before + section[..j])
      {
        var (name, value) := section[j];
        assert (before + section[..j + 1])[..|before| + j] == before + section[..j];
        cDict := cDict[name := value];
        if !isClient {
          if name != "mail" && name != "pwd" {
            log := log + [[name + " = " + value]];
          }
        }
        j := j + 1;
      }
      assert sections[..i + 1][..i] == sections[..i];
      assert section[..|section|] == section;
      i := i + 1;
    }
    assert sections[..|sections|] == sections;
    if !isClient {
      log := log + [[" "]];
    }
    r := Some(cDict);
  }

  /** A name is in the flattened mapping exactly when some item carries it. */
  lemma {:induction false} FlattenKeys(items: seq<Item>, name: string)
    ensures name in Flatten(items) <==> exists j :: 0 <= j < |items| && items[j].0 == name
  {
    if items != [] {
      var init := items[..|items| - 1];
      FlattenKeys(init, name);
      if exists j :: 0 <= j < |init| && init[j].0 == name {
        var j :| 0 <= j < |init| && init[j].0 == name;
        assert items[j].0 == name;
      }
      if exists j :: 0 <= j < |items| && items[j].0 == name {
        var j :| 0 <= j < |items| && items[j].0 == name;
        if j < |init| {
          assert init[j].0 == name;
        }
      }
    }
  }

  /** A name maps to the value of its last occurrence. */
  lemma {:induction false} FlattenLastWins(items: seq<Item>, j: nat)
    requires j < |items|
    requires forall k :: j < k < |items| ==> items[k].0 != items[j].0
    ensures items[j].0 in Flatten(items) && Flatten(items)[items[j].0] == items[j].1
  {
    if j < |items| - 1 {
      var init := items[..|items| - 1];
      FlattenLastWins(init, j);
    }
  }

  /** Every echo line shows one item whose name is not redacted. */
  lemma {:induction false} EchoShowsOnlyPublicItems(items: seq<Item>, e: LogCall)
    requires e in Echo(items)
    ensures exists j :: 0 <= j < |items| && !Redacted(items[j].0) && e == [items[j].0 + " = " + items[j].1]
  {
    var init := items[..|items| - 1];
    var last := items[|items| - 1];
    if e in Echo(init) {
      EchoShowsOnlyPublicItems(init, e);
      var j :| 0 <= j < |init| && !Redacted(init[j].0) && e == [init[j].0 + " = " + init[j].1];
      assert items[j] == init[j];
    } else {
      assert e == [last.0 + " = " + last.1] && !Redacted(last.0);
    }
  }

  /** Every item whose name is not redacted is echoed. */
  lemma {:induction false} EchoShowsEveryPublicItem(items: seq<Item>, j: nat)
    requires j < |items| && !Redacted(items[j].0)
    ensures [items[j].0 + " = " + items[j].1] in Echo(items)
  {
    var init := items[..|items| - 1];
    if j < |items| - 1 {
      EchoShowsEveryPublicItem(init, j);
    }
  }

  /** Reading `xs` then `ys` is reading `xs` and letting every name of
      `ys` overwrite it: section boundaries leave no trace. */
  lemma {:induction false} FlattenConcat(xs: seq<Item>, ys: seq<Item>)
    ensures Flatten(xs + ys) == Flatten(xs) + Flatten(ys)
    decreases |ys|
  {
    if ys == [] {
      assert xs + ys == xs;
    } else {
      var all := xs + ys;
      var last := ys[|ys| - 1];
      assert all[..|all| - 1] == xs + ys[..|ys| - 1];
      FlattenConcat(xs, ys[..|ys| - 1]);
      assert Flatten(all) == (Flatten(xs) + Flatten(ys[..|ys| - 1]))[last.0 := last.1];
    }
  }

  /** The next section read overwrites the names it holds and keeps the rest. */
  lemma LaterSectionOverwrites(sections: seq<Section>, next: Section)
    ensures Flatten(Items(sections + [next])) == Flatten(Items(sections)) + Flatten(next)
  {
    assert (sections + [next])[..|sections|] == sections;
    FlattenConcat(Items(sections), next);
  }
}
