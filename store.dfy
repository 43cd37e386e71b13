/**
 * The artifact store: the process-wide temporary directory
 * (`TEMP_DIR`, app.py:39) that holds one `.ipynb` file per id.
 */
module Store {
  import opened Types

  /** File name to contents. */
  type Store = map<string, seq<byte>>

  const Extension: string := ".ipynb"

  /** The file name `f"{id}.ipynb"` under which an id's notebook is kept (app.py:138, 177, 204). */
  function PathFor(id: string): string {
    id + Extension
  }

  /** Different ids never share a file. */
  lemma PathForInjective(a: string, b: string)
    requires PathFor(a) == PathFor(b)
    ensures a == b
  {
    assert |a| == |b|;
    assert a == PathFor(a)[..|a|];
    assert b == PathFor(b)[..|b|];
  }

  /**
   * What became of one attempt to write a file, as the environment
   * decides it: the bytes landed; the write returned but the file is gone
   * when next looked for; or `open`/`write` raised, with the exception's
   * text.
   */
  datatype WriteOutcome = Written | Lost | Refused(reason: string)
}
