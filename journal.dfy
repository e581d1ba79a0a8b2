/** Values shared by the journal sinks and by the producers that publish to them.
    An event carries a scope (the guild, or nothing), a rendered text and an open
    attribute mapping; the attribute values are a tagged union standing for the
    Python values a producer may pass as keyword arguments. */
module Journal {

  datatype Option<+T> = None | Some(value: T)

  /** The exceptions the modelled code can raise. */
  datatype Error =
    | KeyError(key: AttrValue)   // a dictionary lookup of a missing key
    | TypeError                  // an unhashable key, or iterating a value that is not iterable
    | AttributeError             // an attribute read on None
    | ValueError                 // raised explicitly by the alias tracker

  datatype Result<+T> = Ok(value: T) | Err(error: Error)

  type ChannelId = nat
  type UserId = nat

  /** A guild, reduced to its name and the identities of its channels. */
  datatype Guild = Guild(name: string, channels: set<ChannelId>)

  /** A Python value passed as an event attribute:
      None, a string, an object of some class (an Embed, a File, a Member, ...)
      that the sinks pass on without looking inside, or a list of values. */
  datatype AttrValue =
    | Nil
    | Text(text: string)
    | Object(kind: string)
    | List(items: seq<AttrValue>)

  type Attributes = map<string, AttrValue>

  /** `attributes.get(key, None)` */
  function Get(attributes: Attributes, key: string): AttrValue {
    if key in attributes then attributes[key] else Nil
  }
}
