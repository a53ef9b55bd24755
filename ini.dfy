/**
 * The script's ConfigParser configuration, in memory: named sections, each a map
 * from option names to text. The file on disk is a second value of the same type.
 */
module Ini {
  import opened Py

  type Section = map<string, string>
  type Config = map<string, Section>

  /** `config[section][key]`; `None` stands for the KeyError raised at either level. */
  function Get(c: Config, section: string, key: string): (r: Option<string>)
    ensures r.Some? <==> section in c && key in c[section]
  {
    if section in c && key in c[section] then Some(c[section][key]) else None
  }

  /**
   * `config.read(file)`: every section of the file is added, and every option it
   * holds replaces the one in memory; options the file lacks are kept.
   */
  function Read(c: Config, file: Config): (r: Config)
    ensures r.Keys == c.Keys + file.Keys
    ensures forall s, k :: Get(r, s, k) == (if Get(file, s, k).Some? then Get(file, s, k) else Get(c, s, k))
  {
    map s | s in c.Keys + file.Keys ::
      (if s in c then c[s] else map[]) + (if s in file then file[s] else map[])
  }

  /** Re-reading the file that was just written from memory changes nothing. */
  lemma ReadOwnFile(c: Config)
    ensures Read(c, c) == c
  {
    var r := Read(c, c);
    forall s | s in c
      ensures r[s] == c[s]
    {
      assert r[s].Keys == c[s].Keys by {
        forall k ensures k in r[s] <==> k in c[s] {
          assert Get(r, s, k) == Get(c, s, k);
        }
      }
    }
  }

  /** Reading a file into an empty parser gives exactly the file. */
  lemma ReadIntoEmpty(file: Config)
    ensures Read(map[], file) == file
  {
    var r := Read(map[], file);
    forall s | s in file
      ensures r[s] == file[s]
    {
      assert r[s] == map[] + file[s];
    }
  }
}
