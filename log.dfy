/**
 * The shared diagnostic sink of the shader helpers (a Closure logger):
 * write-only, leveled entries appended in order.
 */
module Log {

  datatype Level = Info | Severe

  datatype Entry = Entry(level: Level, text: string)

  /** The texts of the severe entries of a log, in order. */
  function Severes(entries: seq<Entry>): (r: seq<string>)
    ensures |r| <= |entries|
  {
    if entries == [] then []
    else
      (if entries[0].level == Severe then [entries[0].text] else [])
      + Severes(entries[1..])
  }

  /** Filtering severe entries distributes over appending logs. */
  lemma {:induction false} SeveresAppend(a: seq<Entry>, b: seq<Entry>)
    ensures Severes(a + b) == Severes(a) + Severes(b)
  {
    if a == [] {
      assert a + b == b;
    } else {
      var head := if a[0].level == Severe then [a[0].text] else [];
      assert (a + b)[0] == a[0] && (a + b)[1..] == a[1..] + b;
      SeveresAppend(a[1..], b);
      calc {
        Severes(a + b);
        head + Severes(a[1..] + b);
        head + (Severes(a[1..]) + Severes(b));
        (head + Severes(a[1..])) + Severes(b);
      }
    }
  }

  /** A logger instance; `entries` is everything written to it so far. */
  class Logger {
    var entries: seq<Entry>

    constructor ()
      ensures entries == []
    {
      entries := [];
    }

    method LogInfo(text: string)
      modifies this
      ensures entries == old(entries) + [Entry(Info, text)]
    {
      entries := entries + [Entry(Info, text)];
    }

    method LogSevere(text: string)
      modifies this
      ensures entries == old(entries) + [Entry(Severe, text)]
      ensures Severes(entries) == Severes(old(entries)) + [text]
    {
      SeveresAppend(entries, [Entry(Severe, text)]);
      entries := entries + [Entry(Severe, text)];
    }
  }
}
