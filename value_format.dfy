/**
 * The debug rendering of values used in assertion reports (the `formatValue`
 * family of the console reporter), as pure functions.
 *
 * The reporter keeps a static stack of the objects whose properties are being
 * rendered; here that stack is an explicit parameter, holding object
 * identities. Rendering an object already on the stack gives `{Class}` instead of
 * recursing into it again.
 */
module ValueFormat {
  import opened TestInterop
  import opened Text

  /** How an array key is shown: integer keys bare, string keys between double quotes. */
  function KeyText(k: Key): (r: string)
    ensures k.IntKey? ==> IsDecimal(r) && ParseInt(r) == k.i
    ensures k.StringKey? ==> |r| == |k.s| + 2 && r[0] == '"' && r[|r| - 1] == '"' && r[1..|r| - 1] == k.s
  {
    match k
    case IntKey(i) =>
      IntToStringRoundTrip(i);
      IntToString(i)
    case StringKey(s) => "\"" + s + "\""
  }

  /** A string value: quoted, with CR and the double quote escaped. */
  function QuoteString(s: string): (r: string)
    ensures |r| >= 2 && r[0] == '"' && r[|r| - 1] == '"'
    ensures r[1..|r| - 1] == Escape(s)
    ensures '\n' in r <==> '\n' in s
  {
    "\"" + Escape(s) + "\""
  }

  /** A caught throwable: its class, a line break, its message, and in detail its trace. */
  function ThrowableText(e: Throwable, detailed: bool): string
  {
    var details := if detailed then e.message + "\n\nStacktrace:\n" + e.trace else e.message;
    e.className + ":\n" + details
  }

  /**
   * `formatValue($value, $indent, $detailed)`: a boolean as TRUE or FALSE, an
   * integer in decimal, a string quoted; an array as its count, or in detail one
   * line per entry; an object as its class in braces, or in detail its
   * properties; a throwable as class and message; null as `null`; any other type
   * as its name in braces.
   */
  function FormatValue(v: Value, indent: string, detailed: bool, stack: seq<ObjectId>): string
    decreases v, 1
  {
    match v
    case Bool(b) => if b then "TRUE" else "FALSE"
    case Int(i) => IntToString(i)
    case Str(s) => QuoteString(s)
    case Array(es) =>
      if detailed then "[" + FormatArrayValues(es, indent + "  ", stack) + indent + "]"
      else "array[" + IntToString(|es|) + "]"
    case Thrown(e) => ThrowableText(e, detailed)
    case Object(_, cls, _, _) =>
      if detailed then FormatObject(v, indent, stack)
      else "{" + cls + "}"
    case Null => "null"
    case Other(t) => "{" + t + "}"
  }

  /**
   * `formatObject`: an object already being rendered shows as `{Class}`; any
   * other shows its class (none for an instance of `stdClass`) and its properties, rendered with
   * the object on the stack.
   */
  function FormatObject(v: Value, indent: string, stack: seq<ObjectId>): string
    requires v.Object?
    decreases v, 0
  {
    if v.id in stack then "{" + v.className + "}"
    else
      var shown := if v.isStdClass then "" else v.className;
      "{" + shown + FormatProperties(v.fields, indent + "  ", stack + [v.id]) + indent + "}"
  }

  /** The entries of an array, one `\n<indent>key => value` line each, in order. */
  function EntryLines(es: seq<Entry>, indent: string, stack: seq<ObjectId>): (lines: seq<string>)
    ensures |lines| == |es|
    decreases es, 1
  {
    if es == [] then []
    else
      assert es[0] in es;
      [EntryLine(es[0], indent, stack)] + EntryLines(es[1..], indent, stack)
  }

  /** One entry of a detailed array: `\n<indent>key => value`. */
  function EntryLine(e: Entry, indent: string, stack: seq<ObjectId>): string
    decreases e, 0
  {
    EntryHead(e.key, indent) + FormatValue(e.value, indent, true, stack)
  }

  /** What precedes an entry's value: a line break, the indentation, the key and ` => `. */
  function EntryHead(k: Key, indent: string): string
  {
    "\n" + indent + KeyText(k) + " => "
  }

  /** The properties of an object, one `\n<indent>$name = value` line each, in order. */
  function FieldLines(fs: seq<Field>, indent: string, stack: seq<ObjectId>): (lines: seq<string>)
    ensures |lines| == |fs|
    decreases fs, 1
  {
    if fs == [] then []
    else
      assert fs[0] in fs;
      [FieldLine(fs[0], indent, stack)] + FieldLines(fs[1..], indent, stack)
  }

  /** One property of a detailed object: `\n<indent>$name = value`. */
  function FieldLine(f: Field, indent: string, stack: seq<ObjectId>): string
    decreases f, 0
  {
    FieldHead(f.name, indent) + FormatValue(f.value, indent, true, stack)
  }

  /** What precedes a property's value: a line break, the indentation, `$name` and ` = `. */
  function FieldHead(name: string, indent: string): string
  {
    "\n" + indent + "$" + name + " = "
  }

  /** The lines joined with commas, and a final line break unless there are none. */
  function CommaLines(lines: seq<string>): string
  {
    Join(lines, ",") + (if |lines| > 0 then "\n" else "")
  }

  /** `formatArrayValues`. */
  function FormatArrayValues(es: seq<Entry>, indent: string, stack: seq<ObjectId>): string
    decreases es, 2
  {
    CommaLines(EntryLines(es, indent, stack))
  }

  /** `formatProperties`. */
  function FormatProperties(fs: seq<Field>, indent: string, stack: seq<ObjectId>): string
    decreases fs, 2
  {
    CommaLines(FieldLines(fs, indent, stack))
  }

  /** `format($value, $detailed)`: rendering from the left margin, no object being rendered. */
  function Format(v: Value, detailed: bool): string
  {
    FormatValue(v, "", detailed, [])
  }

  /** `indent`: the trimmed text, every line prefixed by two spaces and ended by a line break. */
  function Indent(s: string): string
  {
    "  " + Join(Split(Trim(s, PhpWhitespace), '\n'), "\n  ") + "\n"
  }

  // ---------------------------------------------------------------------------
  // Properties of the rendering

  /**
   * Where a compact (non-detailed) rendering breaks lines: only a string holding
   * a line break, a throwable (its class and message are on separate lines), and
   * a class or type name holding a line break.
   */
  predicate CompactBreaksLine(v: Value)
  {
    match v
    case Str(s) => '\n' in s
    case Thrown(_) => true
    case Object(_, cls, _, _) => '\n' in cls
    case Other(t) => '\n' in t
    case _ => false
  }

  lemma DecimalHasNoLineBreak(s: string)
    requires IsDecimal(s)
    ensures '\n' !in s
  {
  }

  /**
   * A compact rendering is one line exactly when the value is not one of those
   * that `CompactBreaksLine` names; indentation and the object stack play no part.
   */
  lemma CompactLineBreaks(v: Value, indent: string, stack: seq<ObjectId>)
    ensures '\n' in FormatValue(v, indent, false, stack) <==> CompactBreaksLine(v)
  {
    match v
    case Int(i) => DecimalHasNoLineBreak(IntToString(i));
    case Array(es) =>
      var d := IntToString(|es|);
      DecimalHasNoLineBreak(d);
      assert "array[" + d + "]" == "array[" + d + "]";
    case Thrown(e) =>
      var r := FormatValue(v, indent, false, stack);
      assert r[|e.className| + 1] == '\n';
    case Object(_, cls, _, _) =>
      assert '\n' in "{" + cls + "}" <==> '\n' in cls;
    case Other(t) =>
      assert '\n' in "{" + t + "}" <==> '\n' in t;
    case _ =>
  }

  /** A detailed array breaks lines exactly when it has entries (at an indent without line breaks). */
  lemma DetailedArrayLineBreaks(es: seq<Entry>, indent: string, stack: seq<ObjectId>)
    requires '\n' !in indent
    ensures '\n' in FormatValue(Array(es), indent, true, stack) <==> es != []
  {
    var lines := EntryLines(es, indent + "  ", stack);
    var r := FormatValue(Array(es), indent, true, stack);
    if es == [] {
      assert FormatArrayValues(es, indent + "  ", stack) == "";
      assert r == "[" + indent + "]";
    } else {
      var body := Join(lines, ",");
      assert FormatArrayValues(es, indent + "  ", stack) == body + "\n";
      assert r == "[" + (body + "\n") + indent + "]";
      assert r[|body| + 1] == '\n';
    }
  }

  /**
   * Detail, indentation and the object stack matter only for arrays, objects and
   * throwables: any other value renders alike in every context, and a compact
   * rendering of any value depends on neither the indentation nor the stack.
   */
  lemma RenderingContext(v: Value, indent1: string, indent2: string, detailed1: bool, detailed2: bool,
                         stack1: seq<ObjectId>, stack2: seq<ObjectId>)
    ensures FormatValue(v, indent1, false, stack1) == FormatValue(v, indent2, false, stack2)
    ensures !(v.Array? || v.Object? || v.Thrown?) ==>
            FormatValue(v, indent1, detailed1, stack1) == FormatValue(v, indent2, detailed2, stack2)
  {
  }

  /** Integers render as decimal text that reads back as the same integer. */
  lemma IntRendering(i: int, indent: string, detailed: bool, stack: seq<ObjectId>)
    ensures var r := FormatValue(Int(i), indent, detailed, stack);
      IsDecimal(r) && ParseInt(r) == i
  {
    IntToStringRoundTrip(i);
  }

  /**
   * Strings render between double quotes; for a string without backslashes the
   * quoted part reads back as the string.
   */
  lemma StringRendering(s: string, indent: string, detailed: bool, stack: seq<ObjectId>)
    ensures var r := FormatValue(Str(s), indent, detailed, stack);
      |r| >= 2 && r[0] == '"' && r[|r| - 1] == '"' &&
      ('\\' !in s ==> Unescape(r[1..|r| - 1]) == s)
  {
    if '\\' !in s {
      UnescapeInvertsEscape(s);
    }
  }

  /** A compact array renders as `array[n]` where `n` reads back as its number of entries. */
  lemma CompactArrayRendering(es: seq<Entry>, indent: string, stack: seq<ObjectId>)
    ensures var r := FormatValue(Array(es), indent, false, stack);
      |r| >= 8 && r[..6] == "array[" && r[|r| - 1] == ']' &&
      IsDecimal(r[6..|r| - 1]) && ParseInt(r[6..|r| - 1]) == |es|
  {
    var d := IntToString(|es|);
    var r := "array[" + d + "]";
    assert r[6..|r| - 1] == d;
    IntToStringRoundTrip(|es|);
  }

  /** Line `k` of a detailed array shows entry `k`: its key, then its value in detail. */
  lemma EntryLineAt(es: seq<Entry>, indent: string, stack: seq<ObjectId>, k: nat)
    requires k < |es|
    ensures EntryLines(es, indent, stack)[k] ==
      "\n" + indent + KeyText(es[k].key) + " => " + FormatValue(es[k].value, indent, true, stack)
  {
    EntryLinesAt(es, indent, stack, k);
  }

  lemma {:induction false} EntryLinesAt(es: seq<Entry>, indent: string, stack: seq<ObjectId>, k: nat)
    requires k < |es|
    ensures EntryLines(es, indent, stack)[k] == EntryLine(es[k], indent, stack)
  {
    if k > 0 {
      EntryLinesAt(es[1..], indent, stack, k - 1);
      assert es[1..][k - 1] == es[k];
    }
  }

  /** Line `k` of a detailed object shows property `k`: `$name = value`. */
  lemma FieldLineAt(fs: seq<Field>, indent: string, stack: seq<ObjectId>, k: nat)
    requires k < |fs|
    ensures FieldLines(fs, indent, stack)[k] ==
      "\n" + indent + "$" + fs[k].name + " = " + FormatValue(fs[k].value, indent, true, stack)
  {
    FieldLinesAt(fs, indent, stack, k);
  }

  lemma {:induction false} FieldLinesAt(fs: seq<Field>, indent: string, stack: seq<ObjectId>, k: nat)
    requires k < |fs|
    ensures FieldLines(fs, indent, stack)[k] == FieldLine(fs[k], indent, stack)
  {
    if k > 0 {
      FieldLinesAt(fs[1..], indent, stack, k - 1);
      assert fs[1..][k - 1] == fs[k];
    }
  }

  /**
   * An object whose only property refers back to the object itself: the inner
   * occurrence is not expanded again, it shows as `{Class}`. The class is named
   * there even for an instance of `stdClass`, whose outer braces name no class.
   */
  lemma SelfReference(id: ObjectId, cls: string, std: bool, name: string, inner: seq<Field>)
    ensures
      var self := Object(id, cls, std, [Field(name, Object(id, cls, std, inner))]);
      FormatValue(self, "", true, []) == "{" + (if std then "" else cls) + "\n  $" + name + " = {" + cls + "}\n}"
  {
    var again := Object(id, cls, std, inner);
    assert id in [id];
    assert FormatValue(again, "  ", true, [id]) == "{" + cls + "}";
    SinglePropertyObject(Object(id, cls, std, [Field(name, again)]));
  }

  /** An object with one property, rendered in detail from the left margin with nothing on the stack. */
  lemma SinglePropertyObject(v: Value)
    requires v.Object? && |v.fields| == 1
    ensures FormatValue(v, "", true, []) ==
            "{" + (if v.isStdClass then "" else v.className) + "\n  $" + v.fields[0].name + " = " +
            FormatValue(v.fields[0].value, "  ", true, [v.id]) + "\n}"
  {
    var f := v.fields[0];
    var shown := if v.isStdClass then "" else v.className;
    var x := FormatValue(f.value, "  ", true, [v.id]);
    var tail := f.name + " = " + x;
    var line := "\n  $" + tail;
    assert line == "\n" + "  " + "$" + f.name + " = " + x;
    assert v.fields[1..] == [];
    assert FieldLines(v.fields, "  ", [v.id]) == [line] + FieldLines([], "  ", [v.id]);
    assert FormatProperties(v.fields, "  ", [v.id]) == line + "\n";
    assert [] + [v.id] == [v.id];
    assert "" + "  " == "  ";
    assert FormatValue(v, "", true, []) == "{" + shown + (line + "\n") + "" + "}";
    calc {
      "{" + shown + (line + "\n") + "" + "}";
      ("{" + shown) + (line + "\n") + "}";
      { ConcatAssoc("{" + shown, line + "\n", "}"); }
      ("{" + shown) + ((line + "\n") + "}");
      { ConcatAssoc(line, "\n", "}"); }
      ("{" + shown) + (line + "\n}");
      { ConcatAssoc("\n  $", tail, "\n}"); }
      ("{" + shown) + ("\n  $" + (tail + "\n}"));
      { ConcatAssoc("{" + shown, "\n  $", tail + "\n}"); }
      "{" + shown + "\n  $" + (tail + "\n}");
    }
    assert tail + "\n}" == f.name + " = " + x + "\n}";
  }

  /** The lines of a text, each preceded by two spaces and followed by a line break. */
  function IndentedLines(lines: seq<string>): (r: string)
    ensures |r| == 3 * |lines| + SumLength(lines)
  {
    if lines == [] then "" else "  " + lines[0] + "\n" + IndentedLines(lines[1..])
  }

  function SumLength(lines: seq<string>): nat
  {
    if lines == [] then 0 else |lines[0]| + SumLength(lines[1..])
  }

  lemma {:induction false} JoinIndented(lines: seq<string>)
    requires |lines| >= 1
    ensures "  " + Join(lines, "\n  ") + "\n" == IndentedLines(lines)
  {
    if |lines| > 1 {
      JoinIndented(lines[1..]);
      var j := Join(lines[1..], "\n  ");
      calc {
        "  " + Join(lines, "\n  ") + "\n";
        "  " + (lines[0] + "\n  " + j) + "\n";
        ("  " + lines[0] + "\n") + ("  " + j + "\n");
        ("  " + lines[0] + "\n") + IndentedLines(lines[1..]);
      }
    }
  }

  /**
   * `indent` puts every line of the trimmed text on a line of its own, preceded
   * by two spaces and followed by a line break.
   */
  lemma IndentIsIndentedLines(s: string)
    ensures Indent(s) == IndentedLines(Split(Trim(s, PhpWhitespace), '\n'))
  {
    JoinIndented(Split(Trim(s, PhpWhitespace), '\n'));
  }
}
