/** Game locations and points the player can be sent to by voice: the spoken
    commands derived from a location's name, the command table of the
    "go to <locations>" rule, and the tile lists of points. */
module Locations {
  import opened Common
  import opened Letters

  // ---------------------------------------------------------------------
  // Commands derived from a CamelCase name.
  // ---------------------------------------------------------------------

  /** A match of the pattern `[A-Z][a-z]*`. */
  predicate IsWord(w: string) {
    |w| >= 1 && IsUpperChar(w[0]) && forall i :: 1 <= i < |w| ==> IsLowerChar(w[i])
  }

  /** The length of the longest prefix of lower-case letters. */
  function LowerRun(s: string): (n: nat)
    ensures n <= |s|
    ensures forall i :: 0 <= i < n ==> IsLowerChar(s[i])
    ensures n < |s| ==> !IsLowerChar(s[n])
  {
    if s == [] || !IsLowerChar(s[0]) then 0 else 1 + LowerRun(s[1..])
  }

  /** `re.findall('[A-Z][a-z]*', name)`: scanning left to right, each
      upper-case letter starts a match that takes every lower-case letter
      after it; any other character is skipped. */
  function CapitalWords(name: string): (ws: seq<string>)
    ensures forall i :: 0 <= i < |ws| ==> IsWord(ws[i])
    decreases |name|
  {
    if name == [] then []
    else if IsUpperChar(name[0]) then
      var n := 1 + LowerRun(name[1..]);
      [name[..n]] + CapitalWords(name[n..])
    else CapitalWords(name[1..])
  }

  /** `sep.join(ws)`. */
  function Join(ws: seq<string>, sep: string): string {
    if ws == [] then [] else if |ws| == 1 then ws[0] else ws[0] + sep + Join(ws[1..], sep)
  }

  function CountUpper(s: string): nat {
    if s == [] then 0 else (if IsUpperChar(s[0]) then 1 else 0) + CountUpper(s[1..])
  }

  /** `commands_from_name` (of `Location` and, identically, of `Point`):
      the single command "[the] " followed by the name's capitalised words,
      lower-cased and separated by single spaces. */
  function CommandsFromName(name: string): (r: seq<string>)
    ensures |r| == 1 && |r[0]| >= 6 && r[0][..6] == "[the] "
    ensures forall i :: 6 <= i < |r[0]| ==> !IsUpperChar(r[0][i])
  {
    ["[the] " + Lower(Join(CapitalWords(name), " "))]
  }

  lemma {:induction false} CountUpperAppend(a: string, b: string)
    ensures CountUpper(a + b) == CountUpper(a) + CountUpper(b)
  {
    if a == [] {
      assert a + b == b;
    } else {
      assert (a + b)[1..] == a[1..] + b;
      CountUpperAppend(a[1..], b);
    }
  }

  lemma {:induction false} CountUpperOfLowers(s: string)
    requires forall i :: 0 <= i < |s| ==> IsLowerChar(s[i])
    ensures CountUpper(s) == 0
  {
    if s != [] {
      CountUpperOfLowers(s[1..]);
    }
  }

  /** Every upper-case letter of the name starts exactly one word. */
  lemma {:induction false} CapitalWordsCount(name: string)
    ensures |CapitalWords(name)| == CountUpper(name)
    decreases |name|
  {
    if name != [] {
      if IsUpperChar(name[0]) {
        var n := 1 + LowerRun(name[1..]);
        assert name == name[..n] + name[n..];
        CountUpperAppend(name[..n], name[n..]);
        assert name[..n][1..] == name[1..][..n - 1];
        CountUpperOfLowers(name[1..][..n - 1]);
        CapitalWordsCount(name[n..]);
      } else {
        CapitalWordsCount(name[1..]);
      }
    }
  }

  lemma LowerRunOfWord(w: string, rest: string)
    requires IsWord(w)
    requires rest == [] || IsUpperChar(rest[0])
    ensures LowerRun((w + rest)[1..]) == |w| - 1
  {
    LowerRunPrefix(w[1..], rest);
    assert (w + rest)[1..] == w[1..] + rest;
  }

  lemma {:induction false} LowerRunPrefix(lowers: string, rest: string)
    requires forall i :: 0 <= i < |lowers| ==> IsLowerChar(lowers[i])
    requires rest == [] || IsUpperChar(rest[0])
    ensures LowerRun(lowers + rest) == |lowers|
  {
    if lowers == [] {
      assert lowers + rest == rest;
    } else {
      assert (lowers + rest)[1..] == lowers[1..] + rest;
      LowerRunPrefix(lowers[1..], rest);
    }
  }

  /** Splitting the concatenation of capitalised words gives the words back. */
  lemma {:induction false} CapitalWordsOfConcat(ws: seq<string>)
    requires forall i :: 0 <= i < |ws| ==> IsWord(ws[i])
    ensures CapitalWords(Concat(ws)) == ws
    decreases |ws|
  {
    if ws == [] {
    } else {
      var w, rest := ws[0], ws[1..];
      assert ws == [w] + rest;
      ConcatAppend([w], rest);
      assert Concat([w]) == w by {
        assert [w][..0] == [];
      }
      var name := Concat(ws);
      assert name == w + Concat(rest);
      ConcatStartsWithUpper(rest);
      LowerRunOfWord(w, Concat(rest));
      assert name[..|w|] == w && name[|w|..] == Concat(rest);
      CapitalWordsOfConcat(rest);
    }
  }

  lemma {:induction false} ConcatStartsWithUpper(ws: seq<string>)
    requires forall i :: 0 <= i < |ws| ==> IsWord(ws[i])
    ensures Concat(ws) == [] || IsUpperChar(Concat(ws)[0])
  {
    if ws != [] {
      assert ws == [ws[0]] + ws[1..];
      ConcatAppend([ws[0]], ws[1..]);
      assert Concat([ws[0]]) == ws[0] by {
        assert [ws[0]][..0] == [];
      }
    }
  }

  lemma LowerAppend(a: string, b: string)
    ensures Lower(a + b) == Lower(a) + Lower(b)
  {
    assert forall i :: 0 <= i < |a + b| ==> Lower(a + b)[i] == (Lower(a) + Lower(b))[i];
  }

  lemma {:induction false} LowerJoin(ws: seq<string>)
    ensures Lower(Join(ws, " ")) == Join(seq(|ws|, i requires 0 <= i < |ws| => Lower(ws[i])), " ")
  {
    var lws := seq(|ws|, i requires 0 <= i < |ws| => Lower(ws[i]));
    if |ws| > 1 {
      LowerAppend(ws[0] + " ", Join(ws[1..], " "));
      LowerAppend(ws[0], " ");
      assert Lower(" ") == " ";
      LowerJoin(ws[1..]);
      assert lws[1..] == seq(|ws[1..]|, i requires 0 <= i < |ws[1..]| => Lower(ws[1..][i]));
    }
  }

  /** The command of a CamelCase name made of the words `ws` says those
      words, lower-cased and separated by single spaces, after "[the] ". */
  lemma CommandsFromCamelCase(ws: seq<string>)
    requires forall i :: 0 <= i < |ws| ==> IsWord(ws[i])
    ensures CommandsFromName(Concat(ws)) ==
      ["[the] " + Join(seq(|ws|, i requires 0 <= i < |ws| => Lower(ws[i])), " ")]
  {
    CapitalWordsOfConcat(ws);
    LowerJoin(ws);
  }

  lemma {:induction false} LowerRunStops(x: string, c: char, y: string)
    requires !IsLowerChar(c)
    ensures LowerRun(x + [c] + y) == LowerRun(x)
  {
    if x == [] {
      assert x + [c] + y == [c] + y;
    } else if IsLowerChar(x[0]) {
      assert (x + [c] + y)[1..] == x[1..] + [c] + y;
      LowerRunStops(x[1..], c, y);
    }
  }

  /** A character that is neither upper- nor lower-case ends every match
      before it: the words of the two sides are found separately. */
  lemma {:induction false} CapitalWordsSplit(a: string, c: char, b: string)
    requires !IsUpperChar(c) && !IsLowerChar(c)
    ensures CapitalWords(a + [c] + b) == CapitalWords(a) + CapitalWords(b)
    decreases |a|
  {
    var name := a + [c] + b;
    if a == [] {
      assert name == [c] + b && name[1..] == b;
    } else if IsUpperChar(a[0]) {
      assert name[1..] == a[1..] + [c] + b;
      LowerRunStops(a[1..], c, b);
      var n := 1 + LowerRun(a[1..]);
      assert name[..n] == a[..n];
      assert name[n..] == a[n..] + [c] + b;
      CapitalWordsSplit(a[n..], c, b);
    } else {
      assert name[1..] == a[1..] + [c] + b;
      CapitalWordsSplit(a[1..], c, b);
    }
  }

  /** Characters before the first upper-case letter start no match. */
  lemma {:induction false} CapitalWordsSkip(p: string, s: string)
    requires forall i :: 0 <= i < |p| ==> !IsUpperChar(p[i])
    ensures CapitalWords(p + s) == CapitalWords(s)
  {
    if p == [] {
      assert p + s == s;
    } else {
      assert (p + s)[1..] == p[1..] + s;
      CapitalWordsSkip(p[1..], s);
    }
  }

  lemma FarmCaveWords()
    ensures Concat(["Farm", "Cave"]) == "FarmCave"
    ensures IsWord("Farm") && IsWord("Cave")
  {
    var ws := ["Farm", "Cave"];
    assert ws[..1] == ["Farm"] && ws[..1][..0] == [];
    assert Concat(["Farm"]) == "Farm";
  }

  lemma FarmCaveSpoken()
    ensures Join([Lower("Farm"), Lower("Cave")], " ") == "farm cave"
  {
    assert Lower("Farm")[0] == 'f';
    assert Lower("Cave")[0] == 'c';
    assert ["farm", "cave"][1..] == ["cave"];
  }

  /** The example of the source: `FarmCave` is spoken "[the] farm cave". */
  lemma FarmCaveCommand(name: string)
    requires name == "FarmCave"
    ensures CommandsFromName(name) == ["[the] farm cave"]
  {
    var ws := ["Farm", "Cave"];
    FarmCaveWords();
    CommandsFromCamelCase(ws);
    FarmCaveSpoken();
    var spoken := seq(|ws|, i requires 0 <= i < |ws| => Lower(ws[i]));
    assert spoken == [Lower("Farm"), Lower("Cave")];
    assert CommandsFromName(name) == ["[the] " + Join(spoken, " ")];
    assert "[the] " + "farm cave" == "[the] farm cave";
  }

  lemma CapitalWordsWithSuffix(ws: seq<string>, c: char)
    requires forall i :: 0 <= i < |ws| ==> IsWord(ws[i])
    requires !IsUpperChar(c) && !IsLowerChar(c)
    ensures CapitalWords(Concat(ws) + [c]) == ws
  {
    assert Concat(ws) + [c] == Concat(ws) + [c] + [];
    CapitalWordsSplit(Concat(ws), c, []);
    CapitalWordsOfConcat(ws);
  }

  /** A CamelCase name followed by a digit, an underscore or any other
      uncased character is spoken as the CamelCase name alone. */
  lemma CommandsFromCamelCaseSuffix(ws: seq<string>, c: char)
    requires forall i :: 0 <= i < |ws| ==> IsWord(ws[i])
    requires !IsUpperChar(c) && !IsLowerChar(c)
    ensures CommandsFromName(Concat(ws) + [c]) == CommandsFromName(Concat(ws))
    ensures CommandsFromName(Concat(ws) + [c]) ==
      ["[the] " + Join(seq(|ws|, i requires 0 <= i < |ws| => Lower(ws[i])), " ")]
  {
    CapitalWordsWithSuffix(ws, c);
    CapitalWordsOfConcat(ws);
    CommandsFromCamelCase(ws);
  }

  lemma ConcatThree(w1: string, w2: string, w3: string)
    ensures Concat([w1, w2, w3]) == w1 + w2 + w3
  {
    var ws := [w1, w2, w3];
    assert ws[..2] == [w1, w2] && ws[..2][..1] == [w1] && [w1][..0] == [];
    assert Concat([w1]) == w1;
  }

  lemma JoinThree(l1: string, l2: string, l3: string)
    ensures Join([l1, l2, l3], " ") == l1 + " " + l2 + " " + l3
  {
    assert [l1, l2, l3][1..] == [l2, l3] && [l2, l3][1..] == [l3];
    assert Join([l2, l3], " ") == l2 + " " + l3;
  }

  lemma LowerEach(ws: seq<string>)
    requires |ws| == 3
    ensures seq(|ws|, i requires 0 <= i < |ws| => Lower(ws[i])) == [Lower(ws[0]), Lower(ws[1]), Lower(ws[2])]
  {
  }

  /** The command of three capitalised words followed by an uncased
      character. */
  lemma CommandOfThreeWords(name: string, w1: string, w2: string, w3: string, c: char)
    requires IsWord(w1) && IsWord(w2) && IsWord(w3)
    requires !IsUpperChar(c) && !IsLowerChar(c)
    requires name == w1 + w2 + w3 + [c]
    ensures CommandsFromName(name) == ["[the] " + Lower(w1) + " " + Lower(w2) + " " + Lower(w3)]
  {
    var ws := [w1, w2, w3];
    ConcatThree(w1, w2, w3);
    CommandsFromCamelCaseSuffix(ws, c);
    assert name == Concat(ws) + [c];
    LowerEach(ws);
    var l1, l2, l3 := Lower(w1), Lower(w2), Lower(w3);
    JoinThree(l1, l2, l3);
    assert "[the] " + (l1 + " " + l2 + " " + l3) == "[the] " + l1 + " " + l2 + " " + l3;
  }

  lemma IslandWestCaveWords()
    ensures IsWord("Island") && IsWord("West") && IsWord("Cave")
    ensures "IslandWestCave1" == "Island" + "West" + "Cave" + ['1']
  {
  }

  lemma IslandWestCaveSpoken()
    ensures "[the] " + Lower("Island") + " " + Lower("West") + " " + Lower("Cave") == "[the] island west cave"
  {
    LowerLetters("Island");
    LowerLetters("West");
    LowerLetters("Cave");
    assert Lower("Island") == "island" && Lower("West") == "west" && Lower("Cave") == "cave";
  }

  /** `IslandWestCave1`, a default location without a table entry, is spoken
      "[the] island west cave". */
  lemma IslandWestCaveCommand(name: string)
    requires name == "IslandWestCave1"
    ensures CommandsFromName(name) == ["[the] island west cave"]
  {
    IslandWestCaveWords();
    CommandOfThreeWords(name, "Island", "West", "Cave", '1');
    IslandWestCaveSpoken();
  }

  // ---------------------------------------------------------------------
  // Locations and the command table.
  // ---------------------------------------------------------------------

  class Location {
    const name: string
    const commands: seq<string>

    /** Without explicit commands, a location is named by its CamelCase name. */
    constructor (name: string, commands: Option<seq<string>>)
      ensures this.name == name
      ensures this.commands == match commands case None => CommandsFromName(name) case Some(cs) => cs
    {
      this.name := name;
      if commands.None? {
        this.commands := CommandsFromName(name);
      } else {
        this.commands := commands.value;
      }
    }
  }

  /** Every command of every location, in order. */
  function AllCommands(locs: seq<Location>): seq<string> {
    if locs == [] then [] else AllCommands(locs[..|locs| - 1]) + locs[|locs| - 1].commands
  }

  lemma {:induction false} AllCommandsAppend(a: seq<Location>, b: seq<Location>)
    ensures AllCommands(a + b) == AllCommands(a) + AllCommands(b)
    decreases |b|
  {
    if b == [] {
      assert a + b == a;
    } else {
      var b' := b[..|b| - 1];
      assert (a + b)[..|a + b| - 1] == a + b';
      assert (a + b)[|a + b| - 1] == b[|b| - 1];
      AllCommandsAppend(a, b');
    }
  }

  predicate Distinct(s: seq<string>) {
    forall i, j :: 0 <= i < j < |s| ==> s[i] != s[j]
  }

  lemma DistinctSnoc(s: seq<string>, x: string)
    requires Distinct(s) && x !in s
    ensures Distinct(s + [x])
  {
  }

  /** A distinct list splits into two distinct parts with nothing in common. */
  lemma DistinctSplit(a: seq<string>, b: seq<string>)
    requires Distinct(a + b)
    ensures Distinct(a) && Distinct(b)
    ensures forall x :: x in a ==> x !in b
  {
    forall i, j | 0 <= i < j < |a| ensures a[i] != a[j] {
      assert a[i] == (a + b)[i] && a[j] == (a + b)[j];
    }
    forall i, j | 0 <= i < j < |b| ensures b[i] != b[j] {
      assert b[i] == (a + b)[|a| + i] && b[j] == (a + b)[|a| + j];
    }
    forall i, j | 0 <= i < |a| && 0 <= j < |b| ensures a[i] != b[j] {
      assert a[i] == (a + b)[i] && b[j] == (a + b)[|a| + j];
    }
  }

  /** The `ValueError` of `commands`, naming the repeated command. */
  datatype CommandsError = DuplicateLocation(command: string)

  /** `table` with each of `cmds` entered in turn for `loc`. */
  function AddAll(table: map<string, Location>, cmds: seq<string>, loc: Location): map<string, Location> {
    if cmds == [] then table else AddAll(table, cmds[..|cmds| - 1], loc)[cmds[|cmds| - 1] := loc]
  }

  /** The table `commands` has built after the locations `locs`. */
  function CommandTable(locs: seq<Location>): map<string, Location> {
    if locs == [] then map[]
    else AddAll(CommandTable(locs[..|locs| - 1]), locs[|locs| - 1].commands, locs[|locs| - 1])
  }

  lemma {:induction false} AddAllFacts(table: map<string, Location>, cmds: seq<string>, loc: Location)
    ensures forall c :: c in AddAll(table, cmds, loc) <==> c in table || c in cmds
    ensures forall c :: c in cmds ==> AddAll(table, cmds, loc)[c] == loc
    ensures forall c :: c in table && c !in cmds ==> AddAll(table, cmds, loc)[c] == table[c]
  {
    if cmds != [] {
      var init := cmds[..|cmds| - 1];
      AddAllFacts(table, init, loc);
      assert cmds == init + [cmds[|cmds| - 1]];
    }
  }

  /** The table's keys are exactly the commands of the locations. */
  lemma {:induction false} CommandTableKeys(locs: seq<Location>)
    ensures forall c :: c in CommandTable(locs) <==> c in AllCommands(locs)
  {
    if locs != [] {
      var init, last := locs[..|locs| - 1], locs[|locs| - 1];
      CommandTableKeys(init);
      AddAllFacts(CommandTable(init), last.commands, last);
    }
  }

  lemma AllCommandsContains(locs: seq<Location>, i: nat, k: nat)
    requires i < |locs| && k < |locs[i].commands|
    ensures locs[i].commands[k] in AllCommands(locs)
  {
    assert locs == locs[..i + 1] + locs[i + 1..];
    AllCommandsAppend(locs[..i + 1], locs[i + 1..]);
    assert AllCommands(locs[..i + 1]) == AllCommands(locs[..i]) + locs[i].commands by {
      assert locs[..i + 1][..i] == locs[..i];
    }
  }

  /** With no command repeated, each command maps to its own location. */
  lemma {:induction false} CommandTableMaps(locs: seq<Location>)
    requires Distinct(AllCommands(locs))
    ensures forall i, k :: 0 <= i < |locs| && 0 <= k < |locs[i].commands| ==>
      locs[i].commands[k] in CommandTable(locs) && CommandTable(locs)[locs[i].commands[k]] == locs[i]
  {
    if locs != [] {
      var init, last := locs[..|locs| - 1], locs[|locs| - 1];
      DistinctSplit(AllCommands(init), last.commands);
      CommandTableMaps(init);
      CommandTableKeys(init);
      AddAllFacts(CommandTable(init), last.commands, last);
      forall i, k | 0 <= i < |locs| && 0 <= k < |locs[i].commands|
        ensures locs[i].commands[k] in CommandTable(locs) && CommandTable(locs)[locs[i].commands[k]] == locs[i]
      {
        if i < |init| {
          assert locs[i] == init[i];
          AllCommandsContains(init, i, k);
        }
      }
    }
  }

  /** `commands(locs)`: the table from every command to its location; the
      first command that repeats an earlier one raises instead. */
  method Commands(locs: seq<Location>) returns (r: Result<map<string, Location>, CommandsError>)
    ensures r.Failure? <==> !Distinct(AllCommands(locs))
    ensures r.Failure? ==> exists n ::
      && 0 <= n < |AllCommands(locs)|
      && AllCommands(locs)[n] == r.error.command
      && r.error.command in AllCommands(locs)[..n]
      && Distinct(AllCommands(locs)[..n])
    ensures r.Success? ==> r.value == CommandTable(locs)
    ensures r.Success? ==> r.value.Keys == set c | c in AllCommands(locs)
    ensures r.Success? ==>
      forall i, k :: 0 <= i < |locs| && 0 <= k < |locs[i].commands| ==>
        locs[i].commands[k] in r.value && r.value[locs[i].commands[k]] == locs[i]
  {
    var table: map<string, Location> := map[];
    for i := 0 to |locs|
      invariant Distinct(AllCommands(locs[..i]))
      invariant table == CommandTable(locs[..i])
    {
      var loc := locs[i];
      ghost var done := AllCommands(locs[..i]);
      ghost var before := table;
      assert locs[..i + 1][..i] == locs[..i];
      CommandTableKeys(locs[..i]);
      for j := 0 to |loc.commands|
        invariant Distinct(done + loc.commands[..j])
        invariant table == AddAll(before, loc.commands[..j], loc)
      {
        var cmd := loc.commands[j];
        AddAllFacts(before, loc.commands[..j], loc);
        if cmd in table {
          DuplicateFound(locs, i, j);
          return Failure(DuplicateLocation(cmd));
        }
        assert loc.commands[..j + 1][..j] == loc.commands[..j];
        DistinctSnoc(done + loc.commands[..j], cmd);
        assert done + loc.commands[..j + 1] == (done + loc.commands[..j]) + [cmd];
        table := table[cmd := loc];
      }
      assert loc.commands[..|loc.commands|] == loc.commands;
    }
    assert locs[..|locs|] == locs;
    CommandTableKeys(locs);
    CommandTableMaps(locs);
    return Success(table);
  }

  /** The command at position `j` of location `i` repeats a command seen
      before it, so the commands are not distinct and that is the first
      repetition. */
  lemma DuplicateFound(locs: seq<Location>, i: nat, j: nat)
    requires i < |locs| && j < |locs[i].commands|
    requires Distinct(AllCommands(locs[..i]) + locs[i].commands[..j])
    requires locs[i].commands[j] in AllCommands(locs[..i]) + locs[i].commands[..j]
    ensures !Distinct(AllCommands(locs))
    ensures exists n ::
      && 0 <= n < |AllCommands(locs)|
      && AllCommands(locs)[n] == locs[i].commands[j]
      && locs[i].commands[j] in AllCommands(locs)[..n]
      && Distinct(AllCommands(locs)[..n])
  {
    var prefix := AllCommands(locs[..i]) + locs[i].commands[..j];
    var n := |prefix|;
    assert locs == locs[..i + 1] + locs[i + 1..];
    AllCommandsAppend(locs[..i + 1], locs[i + 1..]);
    assert AllCommands(locs[..i + 1]) == AllCommands(locs[..i]) + locs[i].commands by {
      assert locs[..i + 1][..i] == locs[..i];
    }
    var all := AllCommands(locs);
    assert locs[i].commands == locs[i].commands[..j] + locs[i].commands[j..];
    assert all[..n] == prefix;
    assert all[n] == locs[i].commands[j];
    var t :| 0 <= t < n && prefix[t] == locs[i].commands[j];
    assert all[t] == all[n];
  }

  const DefaultLocations: seq<string> := [
    "FarmHouse", "Farm", "FarmCave", "Town", "JoshHouse",
    "HaleyHouse", "SamHouse", "Blacksmith", "ManorHouse", "SeedShop", "Saloon",
    "Trailer", "Hospital", "HarveyRoom", "Beach", "ElliottHouse", "Mountain",
    "ScienceHouse", "SebastianRoom", "Tent", "Forest", "WizardHouse", "AnimalShop",
    "LeahHouse", "BusStop", "Mine", "Sewer", "BugLand", "Desert", "Club", "SandyHouse",
    "ArchaeologyHouse", "WizardHouseBasement", "AdventureGuild", "Woods", "Railroad",
    "WitchSwamp", "WitchHut", "WitchWarpCave", "Summit", "FishShop", "BathHouse_Entry",
    "BathHouse_MensLocker", "BathHouse_WomensLocker", "BathHouse_Pool", "CommunityCenter",
    "JojaMart", "Greenhouse", "SkullCave", "Backwoods", "Tunnel", "Trailer_Big", "Cellar",
    "Cellar2", "Cellar3", "Cellar4", "BeachNightMarket", "MermaidHouse", "Submarine",
    "AbandonedJojaMart", "MovieTheater", "Sunroom", "BoatTunnel", "IslandSouth",
    "IslandSouthEast", "IslandSouthEastCave", "IslandEast", "IslandWest", "IslandNorth",
    "IslandHut", "IslandWestCave1", "IslandNorthCave1", "IslandFieldOffice", "IslandFarmHouse",
    "CaptainRoom", "IslandShrine", "IslandFarmCave", "Caldera", "LeoTreeHouse", "QiNutRoom"]

  const LocationCommands: map<string, seq<string>> := map[
    "BathHouse_Entry" := ["bath house"],
    "BathHouse_MensLocker" := ["men's locker"],
    "BathHouse_WomensLocker" := ["women's locker"],
    "BathHouse_Pool" := ["bath house pool"],
    "Trailer_Big" := ["trailer big this is a placeholder"],
    "Cellar" := ["cellar one"],
    "Cellar2" := ["cellar two"],
    "Cellar3" := ["cellar three"],
    "Cellar4" := ["cellar four"],
    "ElliottHouse" := ["elliott's house"],
    "HaleyHouse" := ["haley's house", "emily's house", "to willow lane"],
    "JoshHouse" := ["josh's house"],
    "LeahHouse" := ["leah's house"],
    "ArchaeologyHouse" := ["library museum", "library", "museum", "archaeology house"],
    "ManorHouse" := ["manor house", "[mayor] lewis' house"],
    "Mine" := ["[the] (mine | mines)"],
    "SamHouse" := ["sam's house"],
    "Saloon" := ["[stardrop] saloon"],
    "ScienceHouse" := ["[the] science house", "[the] carpenter's house"],
    "SeedShop" := ["[the] seed (shop | store)", "pierre's [general] (shop | store)",
                   "[pierre's] general (shop | store)", "[the] general (shop | store)"]]

  /** The location names `get_locations` uses: the game's answer, or the
      default names when the answer is missing or empty. */
  function LocationNames(response: Option<seq<string>>, defaults: seq<string>): (names: seq<string>)
    ensures response.Some? && response.value != [] ==> names == response.value
    ensures response.None? || response.value == [] ==> names == defaults
  {
    if response.Some? && response.value != [] then response.value else defaults
  }

  /** The commands a location called `name` gets: those `table` gives it,
      or those derived from the name. */
  function CommandsFor(table: map<string, seq<string>>, name: string): seq<string> {
    if name in table then table[name] else CommandsFromName(name)
  }

  /** The loop of `get_locations`, over the default names and the command
      table it is given: one location per name, in order. */
  method LocationsFrom(response: Option<seq<string>>, defaults: seq<string>, table: map<string, seq<string>>)
    returns (locs: seq<Location>)
    ensures |locs| == |LocationNames(response, defaults)|
    ensures forall i :: 0 <= i < |locs| ==>
      && locs[i].name == LocationNames(response, defaults)[i]
      && locs[i].commands == CommandsFor(table, LocationNames(response, defaults)[i])
  {
    var names := LocationNames(response, defaults);
    locs := [];
    for i := 0 to |names|
      invariant |locs| == i
      invariant forall k :: 0 <= k < i ==> locs[k].name == names[k] && locs[k].commands == CommandsFor(table, names[k])
    {
      var name := names[i];
      var commands := if name in table then Some(table[name]) else None;
      var loc := new Location(name, commands);
      locs := locs + [loc];
    }
  }

  /** `get_locations`, given the game's answer to the location request. */
  method GetLocations(response: Option<seq<string>>) returns (locs: seq<Location>)
    ensures |locs| == |LocationNames(response, DefaultLocations)|
    ensures forall i :: 0 <= i < |locs| ==>
      && locs[i].name == LocationNames(response, DefaultLocations)[i]
      && locs[i].commands == CommandsFor(LocationCommands, LocationNames(response, DefaultLocations)[i])
  {
    locs := LocationsFrom(response, DefaultLocations, LocationCommands);
  }

  // ---------------------------------------------------------------------
  // Points.
  // ---------------------------------------------------------------------

  type Tile = (int, int)

  /** The ways a point's tiles are given: a function the game is asked
      (identified by name), one tile, or a list of tiles. */
  datatype TilesArg = TileFunction(fn: string) | SingleTile(tile: Tile) | TileList(tiles: seq<Tile>)

  /** The tiles a point keeps: still a function, or a list. */
  datatype PointTiles = ComputedTiles(fn: string) | ListedTiles(tiles: seq<Tile>)

  /** Looking at `tiles[0]` of an empty list raises `IndexError`. */
  datatype TileListError = EmptyTileList

  /** The tile normalisation of `Point.__init__`: a callable is kept, a
      single tile becomes a one-element list and a list is kept as it is. */
  function NormaliseTiles(tiles: TilesArg): (r: Result<PointTiles, TileListError>)
    ensures r.Failure? <==> tiles == TileList([])
    ensures r.Success? && r.value.ListedTiles? ==> |r.value.tiles| >= 1
    ensures tiles.TileFunction? ==> r == Success(ComputedTiles(tiles.fn))
    ensures tiles.SingleTile? ==> r == Success(ListedTiles([tiles.tile]))
    ensures tiles.TileList? && tiles.tiles != [] ==> r == Success(ListedTiles(tiles.tiles))
  {
    match tiles
    case TileFunction(fn) => Success(ComputedTiles(fn))
    case SingleTile(tile) => Success(ListedTiles([tile]))
    case TileList(ts) => if ts == [] then Failure(EmptyTileList) else Success(ListedTiles(ts))
  }

  /** The dictionaries the game's pathfinding is handed. */
  datatype TileDict = TileDict(tileX: int, tileY: int)

  /** The list branch of `get_tiles`. */
  function TileDicts(tiles: seq<Tile>): (r: seq<TileDict>)
    ensures |r| == |tiles|
    ensures forall i :: 0 <= i < |tiles| ==> r[i].tileX == tiles[i].0 && r[i].tileY == tiles[i].1
  {
    seq(|tiles|, i requires 0 <= i < |tiles| => TileDict(tiles[i].0, tiles[i].1))
  }

  /** Reading the coordinates back out of the dictionaries gives the tiles. */
  lemma TileDictsRoundTrip(tiles: seq<Tile>)
    ensures seq(|tiles|, i requires 0 <= i < |tiles| => (TileDicts(tiles)[i].tileX, TileDicts(tiles)[i].tileY)) == tiles
  {
  }

  class Point {
    const commands: seq<string>
    const tiles: PointTiles
    const location: string
    const facingDirection: Option<int>

    constructor (commands: seq<string>, tiles: PointTiles, location: string, facingDirection: Option<int>)
      ensures this.commands == commands && this.tiles == tiles
      ensures this.location == location && this.facingDirection == facingDirection
    {
      this.commands := commands;
      this.tiles := tiles;
      this.location := location;
      this.facingDirection := facingDirection;
    }

    /** `get_tiles` for a point with a list of tiles; the tiles of a point
        with a function come from the game and are `None` here. */
    function GetTiles(): (r: Option<seq<TileDict>>)
      ensures r.None? <==> tiles.ComputedTiles?
      ensures r.Some? ==> r.value == TileDicts(tiles.tiles)
    {
      match tiles
      case ComputedTiles(_) => None
      case ListedTiles(ts) => Some(TileDicts(ts))
    }
  }

  /** `Point(commands, tiles, location, facing_direction=...)`. */
  method NewPoint(commands: seq<string>, tiles: TilesArg, location: string, facingDirection: Option<int>)
    returns (r: Result<Point, TileListError>)
    ensures r.Failure? <==> tiles == TileList([])
    ensures r.Success? ==>
      && r.value.commands == commands
      && r.value.tiles == NormaliseTiles(tiles).value
      && r.value.location == location
      && r.value.facingDirection == facingDirection
  {
    var normalised := NormaliseTiles(tiles);
    if normalised.Failure? {
      return Failure(normalised.error);
    }
    var p := new Point(commands, normalised.value, location, facingDirection);
    return Success(p);
  }
}
