/** The texts of documents that a user may write and in which implicit marks go wrong. */
module TomlShadowText {
  import opened TomlData
  import opened TomlTables
  import opened TomlLayout
  import opened TomlKeyText
  import opened TomlDocumentText
  import opened TomlShadows
  import opened TomlTextRoundTrip
  import A = TomlArrayText
  import L = TomlLexer
  import F = TomlLexerProofs
  import D = TomlDocument

  lemma ArrayDocumentPrintable(v: Val)
    requires A.Supported(v)
    ensures Named(ArrayDocument(v)) && AllPrintable(ArrayDocument(v))
  {
    var ss := ArrayDocument(v);
    forall i | 0 <= i < |ss| ensures Printable(ss[i]) {
      assert Readable("a") && Readable("b") && Readable("c") && Readable("z");
    }
  }

  lemma DottedDocumentPrintable(v: Val)
    requires A.Supported(v)
    ensures Named(DottedDocument(v)) && AllPrintable(DottedDocument(v))
  {
    var ss := DottedDocument(v);
    forall i | 0 <= i < |ss| ensures Printable(ss[i]) {
      assert Readable("a.b") && Readable("a") && Readable("b") && Readable("c") && Readable("z");
    }
  }

  /** When the statements reach the bug branch, reading their text and replaying it does. */
  lemma DocumentDies(ss: seq<Stmt>, tab: string)
    requires Named(ss) && AllPrintable(ss) && Replay(START, ss).ContextBug? && AllBlank(tab)
    ensures var l := L.Init(Render(tab, ss, 0, false));
      F.Inv(l) && F.PhaseOf(l) == F.AtTop && D.Parse(l, START).DiesInContext?
  {
    var doc := Render(tab, ss, 0, false);
    DocumentRead(doc, tab, ss);
    D.ParseReplays(L.Init(doc), START);
  }

  /** With any value and any blank indentation: reading the text of the document and replaying it
      ends in the context bug. */
  lemma ArrayDocumentDies(v: Val, tab: string)
    requires A.Supported(v) && AllBlank(tab)
    ensures Named(ArrayDocument(v))
    ensures var l := L.Init(Render(tab, ArrayDocument(v), 0, false));
      F.Inv(l) && F.PhaseOf(l) == F.AtTop && D.Parse(l, START).DiesInContext?
  {
    ArrayDocumentPrintable(v);
    ArrayBreaksContext(v);
    DocumentDies(ArrayDocument(v), tab);
  }

  lemma DottedDocumentDies(v: Val, tab: string)
    requires A.Supported(v) && AllBlank(tab)
    ensures Named(DottedDocument(v))
    ensures var l := L.Init(Render(tab, DottedDocument(v), 0, false));
      F.Inv(l) && F.PhaseOf(l) == F.AtTop && D.Parse(l, START).DiesInContext?
  {
    DottedDocumentPrintable(v);
    DottedNameBreaksContext(v);
    DocumentDies(DottedDocument(v), tab);
  }

  lemma DroppedDocumentPrintable(v: Val)
    requires A.Supported(v)
    ensures Named(DroppedDocument(v)) && AllPrintable(DroppedDocument(v)) == true
  {
    var ss := DroppedDocument(v);
    forall i | 0 <= i < |ss| ensures Printable(ss[i]) {
      assert Readable("a") && Readable("b") && Readable("c");
    }
  }

  /** With any value and any blank indentation: the text of [a.b.c], [a], b = v is accepted, and the value
      is nowhere in the tables. */
  lemma DroppedDocumentAccepted(v: Val, tab: string)
    requires A.Supported(v) && AllBlank(tab)
    ensures Named(DroppedDocument(v))
    ensures var l := L.Init(Render(tab, DroppedDocument(v), 0, false));
      F.Inv(l) && F.PhaseOf(l) == F.AtTop && D.Parse(l, START).Parsed? && D.Parse(l, START).p.root == Nested("a", "b", "c")
  {
    var ss := DroppedDocument(v);
    DroppedDocumentPrintable(v);
    ValueDropped(v);
    var doc := Render(tab, ss, 0, false);
    DocumentRead(doc, tab, ss);
    D.ParseReplays(L.Init(doc), START);
  }
}
