/**
 * The freelancer registration page's skills list: the list parsed from the
 * comma-separated skills text, and the two edits made by the skill buttons,
 * each of which writes the text back as the list joined with ", ".
 */
module Skills {
  import opened Text

  /** The same list, each entry trimmed (`map(skill => skill.trim())`). */
  function TrimAll(xs: seq<string>): (r: seq<string>)
    ensures |r| == |xs|
  {
    if xs == [] then [] else [Trim(xs[0])] + TrimAll(xs[1..])
  }

  /** Entry by entry, `TrimAll` is `trim`. */
  lemma {:induction false} TrimAllPointwise(xs: seq<string>)
    ensures forall k :: 0 <= k < |xs| ==> TrimAll(xs)[k] == Trim(xs[k])
    decreases |xs|
  {
    if xs != [] {
      TrimAllPointwise(xs[1..]);
    }
  }

  /** The same list without its empty entries (`filter(skill => skill)`), in order. */
  function DropEmpty(xs: seq<string>): seq<string> {
    if xs == [] then []
    else if xs[0] == [] then DropEmpty(xs[1..])
    else [xs[0]] + DropEmpty(xs[1..])
  }

  /** The filter keeps every non-empty entry as often as it occurs, and nothing else. */
  lemma {:induction false} DropEmptyCounts(xs: seq<string>)
    ensures multiset(DropEmpty(xs)) == multiset(xs)[[] := 0]
    decreases |xs|
  {
    if xs != [] {
      DropEmptyCounts(xs[1..]);
      assert xs == [xs[0]] + xs[1..];
    }
  }

  /** An entry that parsing can produce: non-empty, trimmed and free of commas. */
  predicate WellFormed(skill: string) {
    skill != [] && ',' !in skill && Trimmed(skill)
  }

  predicate AllWellFormed(xs: seq<string>) {
    forall k :: 0 <= k < |xs| ==> WellFormed(xs[k])
  }

  /** Trimmed comma-free pieces stay well-formed once the empty ones are dropped. */
  lemma {:induction false} DropEmptyWellFormed(xs: seq<string>)
    requires forall k :: 0 <= k < |xs| ==> ',' !in xs[k] && Trimmed(xs[k])
    ensures AllWellFormed(DropEmpty(xs))
    decreases |xs|
  {
    if xs != [] {
      DropEmptyWellFormed(xs[1..]);
    }
  }

  /**
   * `text.split(',').map(skill => skill.trim()).filter(skill => skill)`:
   * the trimmed comma-separated pieces, empty ones dropped, in input order
   * and with duplicates kept.
   */
  function Parse(text: string): seq<string> {
    DropEmpty(TrimAll(Split(text, ',')))
  }

  /** Every parsed entry is non-empty, trimmed and free of commas. */
  lemma ParseWellFormed(text: string)
    ensures AllWellFormed(Parse(text))
  {
    var pieces := Split(text, ',');
    var trimmed := TrimAll(pieces);
    SplitOmitsSeparator(text, ',');
    TrimAllPointwise(pieces);
    forall k | 0 <= k < |trimmed|
      ensures ',' !in trimmed[k] && Trimmed(trimmed[k])
    {
      TrimIsTrimmed(pieces[k]);
      TrimKeepsCharacters(pieces[k]);
    }
    DropEmptyWellFormed(trimmed);
  }

  /** The text the skill buttons write: `list.join(', ')`. */
  function Render(list: seq<string>): string {
    Join(list, ", ")
  }

  lemma {:induction false} TrimAllAppend(a: seq<string>, b: seq<string>)
    ensures TrimAll(a + b) == TrimAll(a) + TrimAll(b)
    decreases |a|
  {
    if a == [] {
      assert a + b == b;
    } else {
      var ab := a + b;
      assert ab[0] == a[0];
      assert ab[1..] == a[1..] + b;
      TrimAllAppend(a[1..], b);
    }
  }

  lemma {:induction false} DropEmptyAppend(a: seq<string>, b: seq<string>)
    ensures DropEmpty(a + b) == DropEmpty(a) + DropEmpty(b)
    decreases |a|
  {
    if a == [] {
      assert a + b == b;
    } else {
      var ab := a + b;
      assert ab[0] == a[0];
      assert ab[1..] == a[1..] + b;
      DropEmptyAppend(a[1..], b);
      if a[0] != [] {
        assert DropEmpty(ab) == [a[0]] + DropEmpty(a[1..] + b);
        assert DropEmpty(a) == [a[0]] + DropEmpty(a[1..]);
      }
    }
  }

  /** Text that trims to nothing, the empty text included, parses to the empty list. */
  lemma ParseOfBlank(text: string)
    requires AllSpace(text)
    ensures Parse(text) == []
  {
    assert ',' !in text by {
      forall k | 0 <= k < |text| ensures text[k] != ',' {
        assert IsSpace(text[k]);
      }
    }
    SplitWithoutSeparator(text, ',');
    TrimFacts(text);
    var none: string := [];
    assert TrimAll([text]) == [none];
    assert [none][1..] == [];
    assert DropEmpty([none]) == DropEmpty([]);
  }

  /** Text before the first comma parses on its own. */
  lemma ParseAtComma(a: string, b: string)
    requires ',' !in a
    ensures Parse(a + [','] + b) == Parse(a) + Parse(b)
  {
    SplitAtSeparator(a, ',', b);
    SplitWithoutSeparator(a, ',');
    TrimAllAppend([a], Split(b, ','));
    DropEmptyAppend(TrimAll([a]), TrimAll(Split(b, ',')));
  }

  /** A leading space (the one after the comma of ", ") changes nothing. */
  lemma ParseSkipsLeadingSpace(b: string)
    ensures Parse([' '] + b) == Parse(b)
  {
    var s := [' '] + b;
    assert s[1..] == b;
    var rest := Split(b, ',');
    assert Split(s, ',') == [[' '] + rest[0]] + rest[1..];
    TrimSkipsLeadingSpace(' ', rest[0]);
    assert rest == [rest[0]] + rest[1..];
    TrimAllAppend([[' '] + rest[0]], rest[1..]);
    TrimAllAppend([rest[0]], rest[1..]);
  }

  lemma ParseSingle(x: string)
    requires WellFormed(x)
    ensures Parse(x) == [x]
  {
    SplitWithoutSeparator(x, ',');
    TrimOfTrimmed(x);
    assert TrimAll([x]) == [x];
    assert [x][1..] == [];
    assert DropEmpty([x]) == [x] + DropEmpty([]);
  }

  lemma RenderCons(list: seq<string>)
    requires |list| >= 2
    ensures Render(list) == list[0] + [','] + ([' '] + Render(list[1..]))
  {
    assert list == [list[0]] + list[1..];
    JoinCons(list[0], list[1..], ", ");
  }

  lemma ParseRenderStep(list: seq<string>)
    requires |list| >= 2 && WellFormed(list[0])
    requires Parse(Render(list[1..])) == list[1..]
    ensures Parse(Render(list)) == list
  {
    var tail := Render(list[1..]);
    calc {
      Parse(Render(list));
      { RenderCons(list); }
      Parse(list[0] + [','] + ([' '] + tail));
      { ParseAtComma(list[0], [' '] + tail); }
      Parse(list[0]) + Parse([' '] + tail);
      { ParseSingle(list[0]); ParseSkipsLeadingSpace(tail); }
      [list[0]] + list[1..];
      list;
    }
  }

  /** Round trip: parsing the rendered text of a well-formed list gives back the list. */
  lemma {:induction false} ParseRender(list: seq<string>)
    requires AllWellFormed(list)
    ensures Parse(Render(list)) == list
    decreases |list|
  {
    if list == [] {
      assert Split([], ',') == [[]];
    } else if |list| == 1 {
      ParseSingle(list[0]);
    } else {
      ParseRender(list[1..]);
      ParseRenderStep(list);
    }
  }

  /** Parsing normalises: a parsed list survives being rendered and parsed again. */
  lemma ParseIsStable(text: string)
    ensures Parse(Render(Parse(text))) == Parse(text)
  {
    ParseWellFormed(text);
    ParseRender(Parse(text));
  }

  /** The buttons offered under the skills input. */
  const PopularSkills: seq<string> := [
    "JavaScript", "React", "Python", "Node.js", "UI/UX Design",
    "Java", "C++", "Angular", "Vue.js", "Django", "Ruby", "PHP"
  ]

  /** A non-empty string of letters, digits, the marks `+ . /` and inner spaces is well-formed. */
  lemma PlainWellFormed(s: string)
    requires s != [] && s[0] != ' ' && s[|s| - 1] != ' '
    requires forall k :: 0 <= k < |s| ==> s[k] == ' ' || s[k] == '+' || '.' <= s[k] <= 'z'
    ensures WellFormed(s)
  {
    assert ',' !in s by {
      forall k | 0 <= k < |s| ensures s[k] != ',' { }
    }
  }

  lemma PopularSkillsWellFormed()
    ensures AllWellFormed(PopularSkills)
  {
    forall k | 0 <= k < |PopularSkills|
      ensures WellFormed(PopularSkills[k])
    {
      PlainWellFormed(PopularSkills[k]);
    }
  }

  /** Each popular skill can be added without breaking the list's shape. */
  lemma PopularSkillWellFormed(skill: string)
    requires skill in PopularSkills
    ensures WellFormed(skill)
  {
    PopularSkillsWellFormed();
  }

  /** `addSkill`'s new list: unchanged when the skill is present, else the skill appended. */
  function Add(list: seq<string>, skill: string): seq<string> {
    if skill in list then list else list + [skill]
  }

  /** `removeSkill`'s new list: `filter(skill => skill !== skillToRemove)`. */
  function RemoveAll(list: seq<string>, skill: string): seq<string> {
    if list == [] then []
    else if list[0] == skill then RemoveAll(list[1..], skill)
    else [list[0]] + RemoveAll(list[1..], skill)
  }

  /** Removal drops every copy of the skill and keeps every other entry, as often as it occurs. */
  lemma {:induction false} RemoveAllCounts(list: seq<string>, skill: string)
    ensures multiset(RemoveAll(list, skill)) == multiset(list)[skill := 0]
    decreases |list|
  {
    if list != [] {
      RemoveAllCounts(list[1..], skill);
      assert list == [list[0]] + list[1..];
    }
  }

  /** Adding keeps the list well-formed, so the rendered text parses back to it. */
  lemma AddKeepsSync(list: seq<string>, skill: string)
    requires AllWellFormed(list) && WellFormed(skill)
    ensures AllWellFormed(Add(list, skill))
    ensures Parse(Render(Add(list, skill))) == Add(list, skill)
  {
    ParseRender(Add(list, skill));
  }

  /** Removing keeps the list well-formed, so the rendered text parses back to it. */
  lemma RemoveKeepsSync(list: seq<string>, skill: string)
    requires AllWellFormed(list)
    ensures AllWellFormed(RemoveAll(list, skill))
    ensures Parse(Render(RemoveAll(list, skill))) == RemoveAll(list, skill)
  {
    var r := RemoveAll(list, skill);
    RemoveAllCounts(list, skill);
    forall k | 0 <= k < |r|
      ensures WellFormed(r[k])
    {
      assert r[k] in multiset(r);
      assert r[k] in list;
    }
    ParseRender(r);
  }

  lemma {:induction false} RemoveAbsent(list: seq<string>, skill: string)
    requires skill !in list
    ensures RemoveAll(list, skill) == list
    decreases |list|
  {
    if list != [] {
      RemoveAbsent(list[1..], skill);
      assert list == [list[0]] + list[1..];
    }
  }

  lemma RemoveCons(x: string, rest: seq<string>, skill: string)
    ensures RemoveAll([x] + rest, skill) == (if x == skill then [] else [x]) + RemoveAll(rest, skill)
  {
    assert ([x] + rest)[0] == x;
    assert ([x] + rest)[1..] == rest;
  }

  lemma {:induction false} RemoveAppend(a: seq<string>, b: seq<string>, skill: string)
    ensures RemoveAll(a + b, skill) == RemoveAll(a, skill) + RemoveAll(b, skill)
    decreases |a|
  {
    if a == [] {
      assert a + b == b;
    } else {
      var ab := a + b;
      assert ab[0] == a[0];
      assert ab[1..] == a[1..] + b;
      RemoveAppend(a[1..], b, skill);
      if a[0] != skill {
        assert RemoveAll(ab, skill) == [a[0]] + RemoveAll(a[1..] + b, skill);
        assert RemoveAll(a, skill) == [a[0]] + RemoveAll(a[1..], skill);
      }
    }
  }

  /** Removing a skill that adding has just appended restores the list. */
  lemma RemoveUndoesAdd(list: seq<string>, skill: string)
    requires skill !in list
    ensures RemoveAll(Add(list, skill), skill) == list
  {
    RemoveAppend(list, [skill], skill);
    RemoveAbsent(list, skill);
  }

  /** Duplicates survive parsing: three pieces, two of them equal, give three entries. */
  lemma DuplicatesKept()
    ensures Parse("React, React, Node") == ["React", "React", "Node"]
  {
    var xs := ["React", "React", "Node"];
    assert AllWellFormed(xs);
    assert Render(xs) == "React, React, Node";
    ParseRender(xs);
  }
}
