/**
 * The text `dump_stats` returns, one `<class name>: <count>` line per
 * buffered class, and a reader that takes such text back apart.
 */
module Stats {
  import opened Models
  import opened Decimal
  import opened SaverSpec

  /** One line of `dump_stats`, `"%s: %d\n" % (name, count)`. */
  function StatLine(name: string, count: nat): string
  {
    name + ": " + DecimalString(count) + "\n"
  }

  /** The lines for `entries`, in order. */
  function Render(entries: seq<(string, nat)>): string
  {
    if entries == [] then "" else StatLine(entries[0].0, entries[0].1) + Render(entries[1..])
  }

  /** Appending an entry appends its line, as the loop of `dump_stats` does. */
  lemma {:induction false} RenderAppend(entries: seq<(string, nat)>, e: (string, nat))
    ensures Render(entries + [e]) == Render(entries) + StatLine(e.0, e.1)
    decreases |entries|
  {
    if entries == [] {
      assert entries + [e] == [e];
    } else {
      assert (entries + [e])[1..] == entries[1..] + [e];
      RenderAppend(entries[1..], e);
    }
  }

  /** The name and bucket length of each class of `order`. */
  function Counts(saving: Buckets, order: seq<ModelClass>): (entries: seq<(string, nat)>)
    requires forall i :: 0 <= i < |order| ==> order[i] in saving
    ensures |entries| == |order|
  {
    seq(|order|, i requires 0 <= i < |order| => (Name(order[i]), |saving[order[i]]|))
  }

  /** One more class adds its own entry at the end. */
  lemma CountsAppend(saving: Buckets, order: seq<ModelClass>, i: nat)
    requires i < |order| && forall k :: 0 <= k < |order| ==> order[k] in saving
    ensures Counts(saving, order[..i + 1]) == Counts(saving, order[..i]) + [(Name(order[i]), |saving[order[i]]|)]
  {
    var a := Counts(saving, order[..i + 1]);
    var b := Counts(saving, order[..i]) + [(Name(order[i]), |saving[order[i]]|)];
    assert forall k :: 0 <= k < |a| ==> a[k] == b[k];
  }

  /** The index of the first `ch` in `s`, or `|s|` when there is none. */
  function FirstIndex(s: string, ch: char): (k: nat)
    ensures k <= |s|
    ensures forall i :: 0 <= i < k ==> s[i] != ch
    ensures k < |s| ==> s[k] == ch
    decreases |s|
  {
    if s == [] then 0 else if s[0] == ch then 0 else 1 + FirstIndex(s[1..], ch)
  }

  /** The names of `entries`, in order. */
  function NamesOf(entries: seq<(string, nat)>): (names: seq<string>)
    ensures |names| == |entries|
  {
    if entries == [] then [] else [entries[0].0] + NamesOf(entries[1..])
  }

  /**
   * Reads `dump_stats` text back against the class names it should list:
   * each line must be the expected name, a colon and a space, then digits up
   * to the end of the line; any other text is refused.
   */
  function ReadStats(s: string, names: seq<string>): Option<seq<(string, nat)>>
    decreases |names|
  {
    if names == [] then (if s == [] then Some([]) else None)
    else
      var prefix := names[0] + ": ";
      if |prefix| <= |s| && s[..|prefix|] == prefix then
        var line := s[|prefix|..];
        var m := FirstIndex(line, '\n');
        var digits := line[..m];
        if m < |line| && forall i :: 0 <= i < |digits| ==> IsDigit(digits[i]) then
          match ReadStats(line[m + 1..], names[1..])
          case Some(rest) => Some([(names[0], ParseDecimal(digits))] + rest)
          case None => None
        else None
      else None
  }

  /** Where the reader cuts one rendered line. */
  lemma LineSplits(name: string, digits: string, rest: string)
    requires forall i :: 0 <= i < |digits| ==> IsDigit(digits[i])
    ensures var s := name + ": " + digits + "\n" + rest;
            var prefix := name + ": ";
            var line := s[|prefix|..];
            && |prefix| <= |s| && s[..|prefix|] == prefix
            && FirstIndex(line, '\n') == |digits|
            && line[..|digits|] == digits
            && line[|digits| + 1..] == rest
  {
    var s := name + ": " + digits + "\n" + rest;
    var prefix := name + ": ";
    assert s == prefix + (digits + "\n" + rest);
    var line := s[|prefix|..];
    assert line == digits + "\n" + rest;
    assert line[|digits|] == '\n';
    assert forall i :: 0 <= i < |digits| ==> line[i] == digits[i];
    assert line[..|digits|] == digits;
    assert line[|digits| + 1..] == rest;
  }

  /** The reader takes one rendered line off the front, then reads the rest against the remaining names. */
  lemma ReadStatsLine(name: string, n: nat, rest: string, names: seq<string>)
    requires names != [] && names[0] == name
    ensures ReadStats(StatLine(name, n) + rest, names)
            == match ReadStats(rest, names[1..])
               case Some(entries) => Some([(name, n)] + entries)
               case None => None
  {
    var digits := DecimalString(n);
    assert StatLine(name, n) + rest == name + ": " + digits + "\n" + rest;
    LineSplits(name, digits, rest);
    ParseDecimalString(n);
  }

  /** Reading rendered lines against their names gives back the names and counts. */
  lemma {:induction false} ReadRender(entries: seq<(string, nat)>)
    ensures ReadStats(Render(entries), NamesOf(entries)) == Some(entries)
    decreases |entries|
  {
    if entries != [] {
      var names := NamesOf(entries);
      ReadRender(entries[1..]);
      assert names[0] == entries[0].0 && names[1..] == NamesOf(entries[1..]);
      ReadStatsLine(entries[0].0, entries[0].1, Render(entries[1..]), names);
      assert entries == [(entries[0].0, entries[0].1)] + entries[1..];
    }
  }

  /** `dump_stats` text, read against `SAVING_CLASSES_ORDER`, gives back each class's pending count. */
  lemma StatsReadBack(saving: Buckets)
    requires HasAllBuckets(saving)
    ensures var entries := Counts(saving, SavingClassesOrder);
            && NamesOf(entries) == seq(|SavingClassesOrder|, i requires 0 <= i < |SavingClassesOrder| => Name(SavingClassesOrder[i]))
            && ReadStats(Render(entries), NamesOf(entries)) == Some(entries)
            && forall i :: 0 <= i < |SavingClassesOrder| ==> entries[i].1 == |saving[SavingClassesOrder[i]]|
  {
    var entries := Counts(saving, SavingClassesOrder);
    NamesOfAt(entries);
    ReadRender(entries);
  }

  /**
   * Right after `_save` has emptied a class's bucket, its line in the stats
   * shows 0 and every other line is unchanged.
   */
  lemma SavedClassShowsZero(saving: Buckets, c: ModelClass)
    requires HasAllBuckets(saving) && c in saving
    ensures HasAllBuckets(saving[c := []])
    ensures var before := Counts(saving, SavingClassesOrder);
            var after := Counts(saving[c := []], SavingClassesOrder);
            forall i :: 0 <= i < |after| ==>
              after[i] == (if SavingClassesOrder[i] == c then (Name(c), 0) else before[i])
  {
    ListedAreBuffered();
    CountsUpdate(saving, SavingClassesOrder, c, []);
  }

  /** Replacing one bucket changes the entries of that class only. */
  lemma CountsUpdate(saving: Buckets, order: seq<ModelClass>, c: ModelClass, items: seq<Record>)
    requires forall i :: 0 <= i < |order| ==> order[i] in saving
    ensures var before := Counts(saving, order);
            var after := Counts(saving[c := items], order);
            forall i :: 0 <= i < |order| ==> after[i] == (if order[i] == c then (Name(c), |items|) else before[i])
  {
  }

  lemma {:induction false} NamesOfAt(entries: seq<(string, nat)>)
    ensures forall i :: 0 <= i < |entries| ==> NamesOf(entries)[i] == entries[i].0
    decreases |entries|
  {
    if entries != [] {
      NamesOfAt(entries[1..]);
    }
  }
}
