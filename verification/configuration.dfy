/**
 * ConfigurationImpl: the data of one JSON resource — the class names it
 * applies to, where it came from, and candidate values per property name.
 * Every field may be null (None).
 */
module Configuration {
  import opened Types

  /** Candidate values per property name. */
  type Data = map<string, seq<Value>>

  /** The content of a configuration, as a value. */
  datatype ConfigRecord = ConfigRecord(namespaces: Option<set<string>>, resource: Option<string>, data: Option<Data>)

  /** The hashCode of each component class (Map, Set, URI). */
  datatype Hashes = Hashes(data: Data -> Int32, namespaces: set<string> -> Int32, resource: string -> Int32)

  /** Two's-complement reduction to 32 bits, as Java int arithmetic does. */
  function Wrap32(x: int): (r: Int32)
    ensures (r - x) % 0x1_0000_0000 == 0
  {
    (x - MinInt32) % 0x1_0000_0000 + MinInt32
  }

  /** The hash of one component: 0 for null. */
  function HashOrZero<T>(o: Option<T>, h: T -> Int32): Int32
  {
    if o.None? then 0 else h(o.value)
  }

  /**
   * hashCode: 31 * (31 * (31 * 1 + h(data)) + h(namespaces)) + h(resource)
   * in int arithmetic; reducing once at the end gives the same int as
   * reducing after every step.
   */
  function HashOf(c: ConfigRecord, h: Hashes): Int32
  {
    Wrap32(31 * (31 * (31 + HashOrZero(c.data, h.data)) + HashOrZero(c.namespaces, h.namespaces))
           + HashOrZero(c.resource, h.resource))
  }

  class ConfigurationImpl {
    var namespaces: Option<set<string>>
    var resource: Option<string>
    var data: Option<Data>

    function Record(): ConfigRecord
      reads this
    {
      ConfigRecord(namespaces, resource, data)
    }

    /** The default constructor leaves every field null. */
    constructor ()
      ensures Record() == ConfigRecord(None, None, None)
    {
      namespaces, resource, data := None, None, None;
    }

    /** The designated constructor stores its arguments as given. */
    constructor WithFields(namespaces: Option<set<string>>, resource: Option<string>, data: Option<Data>)
      ensures Record() == ConfigRecord(namespaces, resource, data)
    {
      this.namespaces, this.resource, this.data := namespaces, resource, data;
    }

    method SetResource(resource: Option<string>)
      modifies this
      ensures Record() == old(Record()).(resource := resource)
    {
      this.resource := resource;
    }

    method SetNamespaces(namespaces: Option<set<string>>)
      modifies this
      ensures Record() == old(Record()).(namespaces := namespaces)
    {
      this.namespaces := namespaces;
    }

    method SetData(data: Option<Data>)
      modifies this
      ensures Record() == old(Record()).(data := data)
    {
      this.data := data;
    }

    /**
     * equals: the same object, or another configuration whose fields are
     * pairwise both null or equal.
     */
    function Equals(other: ConfigurationImpl?): (b: bool)
      reads this, other
      ensures b <==> other != null && other.Record() == Record()
    {
      if this == other then true
      else if other == null then false
      else
        (if data.None? then other.data.None? else other.data == data)
        && (if namespaces.None? then other.namespaces.None? else other.namespaces == namespaces)
        && (if resource.None? then other.resource.None? else other.resource == resource)
    }

    /** hashCode: the hash of the three fields, in 32-bit int arithmetic. */
    function HashCode(h: Hashes): (r: Int32)
      reads this
      ensures (r - (31 * (31 * (31 + HashOrZero(data, h.data)) + HashOrZero(namespaces, h.namespaces))
                    + HashOrZero(resource, h.resource))) % 0x1_0000_0000 == 0
      ensures data.None? && namespaces.None? && resource.None? ==> r == 29791
    {
      HashOf(Record(), h)
    }
  }

  /** equals is symmetric. */
  lemma EqualsSymmetric(a: ConfigurationImpl, b: ConfigurationImpl)
    ensures a.Equals(b) <==> b.Equals(a)
  {
  }

  /** Equal configurations have equal hash codes, whatever the component hash functions. */
  lemma EqualsConsistentWithHashCode(a: ConfigurationImpl, b: ConfigurationImpl, h: Hashes)
    requires a.Equals(b)
    ensures a.HashCode(h) == b.HashCode(h)
  {
  }

  /** A configuration whose fields are all null hashes to 31 * 31 * 31 = 29791. */
  lemma EmptyConfigurationHash(h: Hashes)
    ensures HashOf(ConfigRecord(None, None, None), h) == 29791
  {
  }
}
