/** The session log (client/log.py): a `;`-separated file whose first line is the
    header, a list of column keys that only grows, and whose other lines are rows, one
    per flushed entry. The file is modelled as its sequence of lines (without the
    trailing newlines); entry keys and values are modelled as the strings `str()`
    gives for them. */
module Log {
  import opened Common

  /** The lines after the first one: what `readline` followed by `read` leaves. */
  function Tail(file: seq<string>): (r: seq<string>)
    ensures |file| > 0 ==> file == [file[0]] + r
    ensures |file| == 0 ==> r == []
  {
    if |file| == 0 then [] else file[1..]
  }

  /** The first line of the file: the header keys joined by `;`. */
  function HeaderLine(header: seq<string>): string {
    Join(header, ';')
  }

  /** What a row holds for one header key: the entry's value under it, or nothing. */
  function Cell(entry: map<string, string>, key: string): string {
    if key in entry then entry[key] else ""
  }

  function Cells(header: seq<string>, entry: map<string, string>): (r: seq<string>)
    ensures |r| == |header| && forall i :: 0 <= i < |header| ==> r[i] == Cell(entry, header[i])
  {
    seq(|header|, i requires 0 <= i < |header| => Cell(entry, header[i]))
  }

  /** A row as written: every cell followed by `;`. */
  function RowOf(cells: seq<string>): string
    decreases |cells|
  {
    if |cells| == 0 then "" else cells[0] + ";" + RowOf(cells[1..])
  }

  function Row(header: seq<string>, entry: map<string, string>): string {
    RowOf(Cells(header, entry))
  }

  /** A row splits at `;` into its cells and one empty field after the last `;`,
      provided no cell holds a `;` itself. */
  lemma {:induction false} RowSplit(cells: seq<string>)
    requires forall i :: 0 <= i < |cells| ==> ';' !in cells[i]
    ensures Split(RowOf(cells), ';') == cells + [""]
    decreases |cells|
  {
    if |cells| > 0 {
      assert ';' !in cells[0];
      RowSplitHead(cells[0], RowOf(cells[1..]));
      RowSplit(cells[1..]);
      assert cells + [""] == [cells[0]] + (cells[1..] + [""]);
    } else {
      assert SplitOnce("", ';') == None;
    }
  }

  lemma RowSplitHead(cell: string, t: string)
    requires ';' !in cell
    ensures Split(cell + ";" + t, ';') == [cell] + Split(t, ';')
  {
    var s := cell + ";" + t;
    var i := |cell|;
    assert s[i] == ';' && s[..i] == cell;
    assert IndexOf(s, ';') == Some(i);
    assert s[i + 1..] == t;
  }

  /** Every row has one field per header key (plus the empty one after the last `;`),
      holding that key's value in the entry. */
  lemma RowColumns(header: seq<string>, entry: map<string, string>)
    requires forall k :: k in entry ==> ';' !in entry[k]
    ensures |Split(Row(header, entry), ';')| == |header| + 1
    ensures forall i :: 0 <= i < |header| ==> Split(Row(header, entry), ';')[i] == Cell(entry, header[i])
  {
    RowSplit(Cells(header, entry));
  }

  /** The header line reads back as the header, provided no key holds a `;`. */
  lemma HeaderLineSplit(header: seq<string>)
    requires |header| >= 1
    requires forall i :: 0 <= i < |header| ==> ';' !in header[i]
    ensures Split(HeaderLine(header), ';') == header
  {
    SplitJoin(header, ';');
  }

  /** h1 is h0 extended by the keys of the entry that h0 lacks, each once, in some
      order (Python's dictionary order, which the model leaves open). */
  ghost predicate Grown(h0: seq<string>, h1: seq<string>, keys: set<string>) {
    && |h0| <= |h1| && h1[..|h0|] == h0
    && (forall k :: k in keys ==> k in h1)
    && (forall i :: |h0| <= i < |h1| ==> h1[i] in keys && h1[i] !in h0)
    && (forall i, j :: |h0| <= i < j < |h1| ==> h1[i] != h1[j])
  }

  /** The header changed exactly when the entry has a key the header lacked. */
  lemma GrownChanged(h0: seq<string>, h1: seq<string>, keys: set<string>)
    requires Grown(h0, h1, keys)
    ensures |h1| > |h0| <==> exists k :: k in keys && k !in h0
  {
    if |h1| > |h0| {
      assert h1[|h0|] in keys && h1[|h0|] !in h0;
    } else {
      assert h1 == h0;
    }
  }

  /** The keys the header gained are exactly the entry's keys it lacked. */
  lemma GrownAdds(h0: seq<string>, h1: seq<string>, keys: set<string>, k: string)
    requires Grown(h0, h1, keys)
    ensures k in h1[|h0|..] <==> k in keys && k !in h0
  {
    if k in keys && k !in h0 {
      var i :| 0 <= i < |h1| && h1[i] == k;
      assert h1[|h0|..][i - |h0|] == k;
    }
  }

  /** A header without repeated keys stays so. */
  lemma GrownDistinct(h0: seq<string>, h1: seq<string>, keys: set<string>)
    requires Grown(h0, h1, keys)
    requires forall i, j :: 0 <= i < j < |h0| ==> h0[i] != h0[j]
    ensures forall i, j :: 0 <= i < j < |h1| ==> h1[i] != h1[j]
  {
    forall i, j | 0 <= i < j < |h1|
      ensures h1[i] != h1[j]
    {
      if j < |h0| {
        assert h1[i] == h0[i] && h1[j] == h0[j];
      } else if i < |h0| {
        assert h1[i] == h0[i] && h1[j] !in h0;
      }
    }
  }

  /** What `_appendEntry` does to the header and the file. */
  ghost predicate Appended(enabled: bool, entry: map<string, string>,
                           h0: seq<string>, f0: seq<string>, h1: seq<string>, f1: seq<string>)
  {
    if !enabled then h1 == h0 && f1 == f0
    else
      && Grown(h0, h1, entry.Keys)
      && f1 == (if |h1| > |h0| then [HeaderLine(h1)] + Tail(f0) else f0) + [Row(h1, entry)]
  }

  /** The second loop of `_appendEntry`: write every cell followed by `;`. */
  method FormatRow(cells: seq<string>) returns (row: string)
    ensures row == RowOf(cells)
  {
    row := "";
    for i := 0 to |cells|
      invariant row + RowOf(cells[i..]) == RowOf(cells)
    {
      assert cells[i..][1..] == cells[i + 1..];
      row := row + cells[i] + ";";
    }
    assert cells[|cells|..] == [];
  }

  class Logger {
    var header: seq<string>
    var entry: map<string, string>
    var enabled: bool
    var file: seq<string>

    /** A fresh logger has created (and emptied) its file; the file name, taken from
        the clock, is not part of this model. */
    constructor()
      ensures header == [] && entry == map[] && enabled && file == []
    {
      header := [];
      entry := map[];
      enabled := true;
      file := [];
    }

    /** `_appendEntry`: grow the header by the entry's new keys, rewrite the first line
        when it changed, then append the entry's row. */
    method AppendEntry()
      modifies this
      ensures entry == old(entry) && enabled == old(enabled)
      ensures Appended(enabled, entry, old(header), old(file), header, file)
    {
      if !enabled {
        return;
      }
      var headerChanged := GrowHeader();
      if headerChanged {
        file := [HeaderLine(header)] + Tail(file);
      }
      var row := FormatRow(Cells(header, entry));
      file := file + [row];
    }

    /** The first loop of `_appendEntry`: append each entry key the header lacks; the
        result says whether any was appended. */
    method GrowHeader() returns (headerChanged: bool)
      modifies this`header
      ensures Grown(old(header), header, entry.Keys)
      ensures headerChanged <==> |header| > |old(header)|
    {
      headerChanged := false;
      var pending := entry.Keys;
      while pending != {}
        invariant pending <= entry.Keys
        invariant |old(header)| <= |header| && header[..|old(header)|] == old(header)
        invariant forall k :: k in entry.Keys && k !in pending ==> k in header
        invariant forall i :: |old(header)| <= i < |header| ==> header[i] in entry.Keys - pending && header[i] !in old(header)
        invariant forall i, j :: |old(header)| <= i < j < |header| ==> header[i] != header[j]
        invariant headerChanged <==> |header| > |old(header)|
        decreases pending
      {
        var key :| key in pending;
        if key !in header {
          header := header + [key];
          headerChanged := true;
        }
        pending := pending - {key};
      }
    }

    /** `new`: flush and clear a non-empty entry, then take over the given one. The
        first call therefore writes nothing. */
    method New(d: map<string, string>)
      modifies this
      ensures entry == d && enabled == old(enabled)
      ensures old(entry) == map[] ==> header == old(header) && file == old(file)
      ensures old(entry) != map[] ==> Appended(enabled, old(entry), old(header), old(file), header, file)
    {
      if entry != map[] {
        AppendEntry();
        entry := map[];
      }
      Extend(d);
    }

    /** `extend`: a dictionary update, so later values overwrite earlier ones. */
    method Extend(d: map<string, string>)
      modifies this`entry
      ensures entry == old(entry) + d
      ensures forall k :: k in d ==> entry[k] == d[k]
      ensures forall k :: k in old(entry) && k !in d ==> entry[k] == old(entry)[k]
    {
      entry := entry + d;
    }
  }
}
