/**
 * The schema script's statement splitter and its execution loop. Reading the schema file, the
 * database calls and the console output are inputs or left out.
 */
module InitDatabase {
  import opened Strings

  const CommentMarker := "--"

  /** Whether a trimmed chunk is kept: not empty and not starting with a `--` comment. */
  predicate IsStatement(t: String) {
    |t| > 0 && !StartsWith(t, CommentMarker)
  }

  /** One chunk's contribution: the chunk trimmed, when that is a statement. */
  function KeepChunk(chunk: String): (r: seq<String>)
    ensures |r| <= 1 && forall i :: 0 <= i < |r| ==> IsStatement(r[i])
  {
    var t := Trim(chunk);
    if IsStatement(t) then [t] else []
  }

  /** The kept chunks, trimmed, in order. */
  function KeepStatements(chunks: seq<String>): (r: seq<String>)
    ensures |r| <= |chunks|
    ensures forall i :: 0 <= i < |r| ==> IsStatement(r[i])
    decreases |chunks|
  {
    if chunks == [] then [] else KeepChunk(chunks[0]) + KeepStatements(chunks[1..])
  }

  /** The statements of a schema: its `;`-separated chunks, trimmed, dropping empty and comment chunks. */
  function Statements(sql: String): seq<String> {
    KeepStatements(Split(sql, ';'))
  }

  lemma {:induction false} KeepStatementsLack(chunks: seq<String>, c: char)
    requires forall i :: 0 <= i < |chunks| ==> c !in chunks[i]
    ensures forall i :: 0 <= i < |KeepStatements(chunks)| ==> c !in KeepStatements(chunks)[i]
    decreases |chunks|
  {
    if chunks != [] {
      TrimKeepsMissingChar(chunks[0], c);
      KeepStatementsLack(chunks[1..], c);
    }
  }

  /** No statement contains a `;`, and each is already trimmed. */
  lemma StatementsShape(sql: String)
    ensures forall i :: 0 <= i < |Statements(sql)| ==> ';' !in Statements(sql)[i]
    ensures forall i :: 0 <= i < |Statements(sql)| ==> IsStatement(Statements(sql)[i])
  {
    KeepStatementsLack(Split(sql, ';'), ';');
  }

  lemma {:induction false} KeepStatementsConcat(a: seq<String>, b: seq<String>)
    ensures KeepStatements(a + b) == KeepStatements(a) + KeepStatements(b)
    decreases |a|
  {
    if a == [] {
      assert a + b == b;
    } else {
      var ab := a + b;
      assert ab[0] == a[0];
      assert ab[1..] == a[1..] + b;
      KeepStatementsConcat(a[1..], b);
      calc {
        KeepStatements(ab);
        KeepChunk(a[0]) + KeepStatements(a[1..] + b);
        KeepChunk(a[0]) + (KeepStatements(a[1..]) + KeepStatements(b));
      }
    }
  }

  /** A chunk without `;` is kept, trimmed, unless it is blank or starts with a comment. */
  lemma SingleChunk(a: String)
    requires ';' !in a
    ensures IsStatement(Trim(a)) ==> Statements(a) == [Trim(a)]
    ensures !IsStatement(Trim(a)) ==> Statements(a) == []
  {
    SplitNoSep(a, ';');
    assert KeepStatements([a]) == (if IsStatement(Trim(a)) then [Trim(a)] else []) + KeepStatements([]);
  }

  /** Statements come out in source order: the chunk before the first `;`, then those of the rest. */
  lemma StatementsInOrder(a: String, b: String)
    requires ';' !in a
    ensures Statements(a + ";" + b) == Statements(a) + Statements(b)
  {
    SplitAtSeparator(a, b, ';');
    SplitNoSep(a, ';');
    KeepStatementsConcat([a], Split(b, ';'));
  }

  /**
   * A chunk that starts with a comment is dropped whole, SQL after the comment line included:
   * `-- note` followed by a statement in the same chunk yields nothing.
   */
  lemma CommentSwallowsChunk(comment: String, rest: String)
    requires ';' !in comment + rest
    requires StartsWith(Trim(comment + rest), CommentMarker)
    ensures Statements(comment + rest) == []
  {
    SingleChunk(comment + rest);
  }

  /**
   * The execution loop of `initializeDatabase`: every statement once, in order, with `;` appended.
   * `run` stands for the database call; its outcome is only logged, so the loop always moves on.
   */
  method ExecuteStatements(schema: String, run: String -> bool) returns (sent: seq<String>, succeeded: seq<bool>)
    ensures |sent| == |Statements(schema)| && |succeeded| == |sent|
    ensures forall i :: 0 <= i < |sent| ==> sent[i] == Statements(schema)[i] + ";" && succeeded[i] == run(sent[i])
  {
    var statements := Statements(schema);
    sent := [];
    succeeded := [];
    var i := 0;
    while i < |statements|
      invariant 0 <= i <= |statements|
      invariant |sent| == i && |succeeded| == i
      invariant forall j :: 0 <= j < i ==> sent[j] == statements[j] + ";" && succeeded[j] == run(sent[j])
    {
      var statement := statements[i] + ";";
      var ok := run(statement);
      sent := sent + [statement];
      succeeded := succeeded + [ok];
      i := i + 1;
    }
  }
}
