/**
 * The XWiki.SchedulerJobClass document and the repair updateSchedulerJobClass applies to it: the
 * nine job properties are added when missing, and the creator, author, parent, title, content
 * and syntax are filled in when blank (or, for the content, when the syntax is not XWiki 2.0).
 * The document is saved only when one of those steps had something to do.
 */
module JobClassSchema {

  /** A property of the class: a text field of some size, or a text area of some columns and rows. */
  datatype Property = TextField(prettyName: string, size: nat) | TextAreaField(prettyName: string, columns: nat, rows: nat)

  /** The parts of the class document that the repair reads or writes. */
  datatype ClassDoc = ClassDoc(
    properties: map<string, Property>,
    creator: string,
    author: string,
    parent: string,
    title: string,
    content: string,
    syntaxId: string)

  const DEFAULT_CREATOR: string := "superadmin"
  const CLASS_PARENT: string := "XWiki.XWikiClasses"
  const CLASS_TITLE: string := "XWiki Scheduler Job Class"
  const CLASS_SHEET_CONTENT: string := "{{include document=\"XWiki.ClassSheet\" /}}"
  /** XWikiDocument.XWIKI20_SYNTAXID */
  const XWIKI20_SYNTAXID: string := "xwiki/2.0"

  /** The nine properties, in the order they are added. */
  const JOB_PROPERTIES: seq<(string, Property)> := [
    ("jobName", TextField("Job Name", 60)),
    ("jobDescription", TextAreaField("Job Description", 45, 10)),
    ("jobClass", TextField("Job Class", 60)),
    ("status", TextField("Status", 30)),
    ("cron", TextField("Cron Expression", 30)),
    ("script", TextAreaField("Job Script", 45, 10)),
    ("contextUser", TextField("Job execution context user", 30)),
    ("contextLang", TextField("Job execution context lang", 30)),
    ("contextDatabase", TextField("Job execution context database", 30))]

  /** The document a failed load is replaced with: nothing set at all. */
  const EMPTY_CLASS_DOC: ClassDoc := ClassDoc(map[], "", "", "", "", "", "")

  /**
   * Character.isWhitespace: tab, line feed, vertical tab, form feed, carriage return, the four
   * information separators U+001C-U+001F, and the Unicode space, line and paragraph separators
   * except the non-breaking ones (U+00A0, U+2007, U+202F).
   */
  predicate IsWhitespace(c: char) {
    || '\t' <= c <= '\r'
    || '\U{001C}' <= c <= ' '
    || c == '\U{1680}'
    || '\U{2000}' <= c <= '\U{2006}'
    || '\U{2008}' <= c <= '\U{200A}'
    || c == '\U{2028}' || c == '\U{2029}' || c == '\U{205F}' || c == '\U{3000}'
  }

  /** StringUtils.isBlank: empty or whitespace only. */
  predicate IsBlank(s: string) {
    forall i :: 0 <= i < |s| ==> IsWhitespace(s[i])
  }

  /** Every property of `defs` is present in `properties`. */
  predicate HasAll(properties: map<string, Property>, defs: seq<(string, Property)>) {
    forall i :: 0 <= i < |defs| ==> defs[i].0 in properties
  }

  /**
   * The successive addTextField / addTextAreaField calls: each adds its property only when no
   * property of that name exists, and reports whether it added it; the reports are or-ed.
   */
  function AddProperties(properties: map<string, Property>, defs: seq<(string, Property)>): (map<string, Property>, bool)
    decreases |defs|
  {
    if defs == [] then (properties, false)
    else
      var name := defs[0].0;
      var added := name !in properties;
      var next := if added then properties[name := defs[0].1] else properties;
      var rest := AddProperties(next, defs[1..]);
      (rest.0, added || rest.1)
  }

  /**
   * Adding properties leaves every property of `defs` present, keeps existing ones as they were,
   * adds nothing beyond `defs`, and reports an addition exactly when one was missing.
   */
  lemma {:induction false} AddPropertiesSpec(properties: map<string, Property>, defs: seq<(string, Property)>)
    ensures HasAll(AddProperties(properties, defs).0, defs)
    ensures forall n :: n in properties ==> n in AddProperties(properties, defs).0 && AddProperties(properties, defs).0[n] == properties[n]
    ensures forall n :: n in AddProperties(properties, defs).0 ==> n in properties || exists i :: 0 <= i < |defs| && defs[i].0 == n
    ensures AddProperties(properties, defs).1 <==> !HasAll(properties, defs)
    ensures !AddProperties(properties, defs).1 ==> AddProperties(properties, defs).0 == properties
    decreases |defs|
  {
    if defs != [] {
      var name := defs[0].0;
      var added := name !in properties;
      var next := if added then properties[name := defs[0].1] else properties;
      AddPropertiesSpec(next, defs[1..]);
      var rest := AddProperties(next, defs[1..]);
      assert rest == (AddProperties(properties, defs).0, rest.1);
      assert HasAll(rest.0, defs) by {
        forall i | 0 <= i < |defs| ensures defs[i].0 in rest.0 {
          if i > 0 { assert defs[i] == defs[1..][i - 1]; }
        }
      }
      assert forall n :: n in rest.0 ==> n in properties || exists i :: 0 <= i < |defs| && defs[i].0 == n by {
        forall n | n in rest.0 && n !in properties ensures exists i :: 0 <= i < |defs| && defs[i].0 == n {
          if n == name {
            assert defs[0].0 == n;
          } else {
            assert n !in next;
            var j :| 0 <= j < |defs[1..]| && defs[1..][j].0 == n;
            assert defs[j + 1].0 == n;
          }
        }
      }
      assert !HasAll(properties, defs) <==> added || !HasAll(next, defs[1..]) by {
        if !added {
          assert next == properties;
          assert HasAll(properties, defs) <==> HasAll(properties, defs[1..]) by {
            if HasAll(properties, defs[1..]) {
              forall i | 0 <= i < |defs| ensures defs[i].0 in properties {
                if i > 0 { assert defs[i] == defs[1..][i - 1]; }
              }
            }
            if HasAll(properties, defs) {
              forall i | 0 <= i < |defs[1..]| ensures defs[1..][i].0 in properties {
                assert defs[1..][i] == defs[i + 1];
              }
            }
          }
        }
      }
    }
  }

  /** The document holds every job property and nothing of what is checked is blank or of another syntax. */
  predicate UpToDate(d: ClassDoc) {
    && HasAll(d.properties, JOB_PROPERTIES)
    && !IsBlank(d.creator) && !IsBlank(d.author) && !IsBlank(d.parent) && !IsBlank(d.title)
    && !IsBlank(d.content) && d.syntaxId == XWIKI20_SYNTAXID
  }

  /**
   * updateSchedulerJobClass on a loaded document: the repaired document and whether it needs
   * saving. The author is filled from the creator as it stands after the creator was filled.
   */
  function Repair(d: ClassDoc): (r: (ClassDoc, bool))
  {
    var (properties, added) := AddProperties(d.properties, JOB_PROPERTIES);
    var creator := if IsBlank(d.creator) then DEFAULT_CREATOR else d.creator;
    var author := if IsBlank(d.author) then creator else d.author;
    var parent := if IsBlank(d.parent) then CLASS_PARENT else d.parent;
    var title := if IsBlank(d.title) then CLASS_TITLE else d.title;
    var resetContent := IsBlank(d.content) || d.syntaxId != XWIKI20_SYNTAXID;
    var content := if resetContent then CLASS_SHEET_CONTENT else d.content;
    var syntaxId := if resetContent then XWIKI20_SYNTAXID else d.syntaxId;
    var changed := added || IsBlank(d.creator) || IsBlank(d.author) || IsBlank(d.parent)
                   || IsBlank(d.title) || resetContent;
    (ClassDoc(properties, creator, author, parent, title, content, syntaxId), changed)
  }

  lemma DefaultsNotBlank()
    ensures !IsBlank(DEFAULT_CREATOR) && !IsBlank(CLASS_PARENT) && !IsBlank(CLASS_TITLE) && !IsBlank(CLASS_SHEET_CONTENT)
  {
    assert !IsWhitespace(DEFAULT_CREATOR[0]) && !IsWhitespace(CLASS_PARENT[0]);
    assert !IsWhitespace(CLASS_TITLE[0]) && !IsWhitespace(CLASS_SHEET_CONTENT[0]);
  }

  /** After the repair the document is up to date, and properties already present are kept as they were. */
  lemma RepairMakesUpToDate(d: ClassDoc)
    ensures UpToDate(Repair(d).0)
    ensures forall n :: n in d.properties ==> Repair(d).0.properties[n] == d.properties[n]
  {
    DefaultsNotBlank();
    AddPropertiesSpec(d.properties, JOB_PROPERTIES);
  }

  /** The repair reports work to do exactly when the document is not up to date. */
  lemma RepairNeededIffStale(d: ClassDoc)
    ensures Repair(d).1 <==> !UpToDate(d)
  {
    AddPropertiesSpec(d.properties, JOB_PROPERTIES);
  }

  /** The document is saved exactly when the repair changed it: a save never writes back the same document. */
  lemma RepairChangedIffDifferent(d: ClassDoc)
    ensures Repair(d).1 <==> Repair(d).0 != d
  {
    DefaultsNotBlank();
    AddPropertiesSpec(d.properties, JOB_PROPERTIES);
    var r := Repair(d).0;
    if Repair(d).1 {
      if !HasAll(d.properties, JOB_PROPERTIES) {
        var i :| 0 <= i < |JOB_PROPERTIES| && JOB_PROPERTIES[i].0 !in d.properties;
        assert JOB_PROPERTIES[i].0 in r.properties;
      } else if IsBlank(d.content) || d.syntaxId != XWIKI20_SYNTAXID {
        assert r.content != d.content || r.syntaxId != d.syntaxId;
      }
    }
  }

  /** A second repair finds nothing to do: the class is saved at most once across restarts. */
  lemma RepairIdempotent(d: ClassDoc)
    ensures !Repair(Repair(d).0).1
    ensures Repair(Repair(d).0).0 == Repair(d).0
  {
    RepairMakesUpToDate(d);
    RepairNeededIffStale(Repair(d).0);
    RepairChangedIffDifferent(Repair(d).0);
  }
}
