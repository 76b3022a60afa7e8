/** The comma-separated text the export buttons build: each row's
    fields joined by ',' with no quoting of their own, the lines joined
    by '\n' with no trailing line break. */
module Csv {
  import opened Text

  /** `row.join(",")` */
  function Line(fields: seq<string>): string {
    Join(fields, ',')
  }

  /** `[headers.join(","), ...rows.map(row => row.join(","))].join("\n")` */
  function Document(header: seq<string>, rows: seq<seq<string>>): string {
    Join([Line(header)] + Lines(rows), '\n')
  }

  function Lines(rows: seq<seq<string>>): (ls: seq<string>)
    ensures |ls| == |rows|
    ensures forall i :: 0 <= i < |rows| ==> ls[i] == Line(rows[i])
  {
    if rows == [] then [] else [Line(rows[0])] + Lines(rows[1..])
  }

  /** No field holds c. */
  predicate Free(fields: seq<string>, c: char) {
    forall i :: 0 <= i < |fields| ==> c !in fields[i]
  }

  predicate AllFree(rows: seq<seq<string>>, c: char) {
    forall i :: 0 <= i < |rows| ==> Free(rows[i], c)
  }

  /** Joining adds no character but the separator. */
  lemma {:induction false} JoinFree(parts: seq<string>, sep: char, c: char)
    requires c != sep && Free(parts, c)
    ensures c !in Join(parts, sep)
  {
    if |parts| > 1 {
      JoinFree(parts[1..], sep, c);
      var s := parts[0] + [sep] + Join(parts[1..], sep);
      forall k | 0 <= k < |s| ensures s[k] != c {
        if k < |parts[0]| {
          assert s[k] == parts[0][k];
        } else if k > |parts[0]| {
          assert s[k] == Join(parts[1..], sep)[k - |parts[0]| - 1];
        }
      }
    }
  }

  /** Splitting the text at line breaks gives back the header line and
      one line per row, in order: the text has |rows| + 1 lines. */
  lemma DocumentLines(header: seq<string>, rows: seq<seq<string>>)
    requires Free(header, '\n') && AllFree(rows, '\n')
    ensures Split(Document(header, rows), '\n') == [Line(header)] + Lines(rows)
    ensures |Split(Document(header, rows), '\n')| == |rows| + 1
  {
    var ls := [Line(header)] + Lines(rows);
    JoinFree(header, ',', '\n');
    forall i | 0 <= i < |ls| ensures '\n' !in ls[i] {
      if i > 0 {
        JoinFree(rows[i - 1], ',', '\n');
      }
    }
    SplitJoin(ls, '\n');
  }

  /** A line whose fields hold no comma splits back into its fields. */
  lemma LineFields(fields: seq<string>)
    requires |fields| >= 1 && Free(fields, ',')
    ensures Split(Line(fields), ',') == fields
  {
    SplitJoin(fields, ',');
  }

  /** A separator inside one field, none in the others: the line reads
      back with that field cut in two. */
  lemma SplitFieldLine(pre: seq<string>, a: string, b: string, post: seq<string>)
    requires Free(pre + [a, b] + post, ',')
    ensures Split(Line(pre + [a + [','] + b] + post), ',') == pre + [a, b] + post
  {
    JoinSplitsField(pre, a, b, post, ',');
    LineFields(pre + [a, b] + post);
  }

  lemma JoinCons(x: string, rest: seq<string>, sep: char)
    requires rest != []
    ensures Join([x] + rest, sep) == x + [sep] + Join(rest, sep)
  {
    assert ([x] + rest)[1..] == rest;
  }

  /** A separator inside a field reads, once joined, as two fields. */
  lemma {:induction false} JoinSplitsField(pre: seq<string>, a: string, b: string, post: seq<string>, sep: char)
    ensures Join(pre + [a + [sep] + b] + post, sep) == Join(pre + [a, b] + post, sep)
  {
    if pre == [] {
      assert pre + [a + [sep] + b] + post == [a + [sep] + b] + post;
      assert pre + [a, b] + post == [a] + ([b] + post);
      JoinCons(a, [b] + post, sep);
      if post != [] {
        JoinCons(a + [sep] + b, post, sep);
        JoinCons(b, post, sep);
      } else {
        assert [b] + post == [b];
        assert [a + [sep] + b] + post == [a + [sep] + b];
      }
    } else {
      JoinSplitsField(pre[1..], a, b, post, sep);
      assert pre + [a + [sep] + b] + post == [pre[0]] + (pre[1..] + [a + [sep] + b] + post);
      assert pre + [a, b] + post == [pre[0]] + (pre[1..] + [a, b] + post);
      JoinCons(pre[0], pre[1..] + [a + [sep] + b] + post, sep);
      JoinCons(pre[0], pre[1..] + [a, b] + post, sep);
    }
  }
}
