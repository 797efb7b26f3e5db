/**
 The codeplug as the objects it is made of, and the loops that copy it: a copy
 has equal contents and shares no object with its source.
 */
module CodeplugHeap {
  import opened Results

  type Slot = string

  /** All of a channel's fields are values; this stands for them together. */
  type Fields = int

  class ChannelData {
    var fields: Fields

    constructor (fields: Fields)
      ensures this.fields == fields
    {
      this.fields := fields;
    }
  }

  /** A slice element: the slot by value, the data by reference. */
  datatype Channel = Channel(slot: Slot, data: ChannelData?)

  class MenuSnapshot {
    const descriptor: string
    const complete: bool
    const entries: array<int>
    const legacy: array<int>

    constructor (descriptor: string, complete: bool, entries: array<int>, legacy: array<int>)
      ensures this.descriptor == descriptor && this.complete == complete
      ensures this.entries == entries && this.legacy == legacy
    {
      this.descriptor, this.complete, this.entries, this.legacy := descriptor, complete, entries, legacy;
    }
  }

  class RawImage {
    const model: string
    const profileId: string
    const bytes: array<int>

    constructor (model: string, profileId: string, bytes: array<int>)
      ensures this.model == model && this.profileId == profileId && this.bytes == bytes
    {
      this.model, this.profileId, this.bytes := model, profileId, bytes;
    }
  }

  /** What a codeplug says by value; `radio` stands for all the value fields of the radio's description. */
  datatype Header = Header(schema: int, generator: string, radio: string)

  datatype MenuContents = MenuContents(descriptor: string, complete: bool, entries: seq<int>, legacy: seq<int>)

  datatype ImageContents = ImageContents(model: string, profileId: string, bytes: seq<int>)

  type ChannelContents = (Slot, Option<Fields>)

  /** The contents of a codeplug, with every reference followed. */
  datatype Contents = Contents(
    header: Header,
    channels: seq<ChannelContents>,
    menus: Option<MenuContents>,
    failed: seq<int>,
    raw: Option<ImageContents>)

  ghost function DataObjects(chs: seq<Channel>): set<ChannelData> {
    set i | 0 <= i < |chs| && chs[i].data != null :: chs[i].data
  }

  function ChannelValue(c: Channel): ChannelContents
    reads c.data
  {
    (c.slot, if c.data == null then None else Some(c.data.fields))
  }

  function ChannelValues(chs: seq<Channel>): (v: seq<ChannelContents>)
    reads DataObjects(chs)
    ensures |v| == |chs|
    ensures forall i | 0 <= i < |chs| :: v[i] == ChannelValue(chs[i])
  {
    if chs == [] then [] else
      assert DataObjects(chs[..|chs| - 1]) <= DataObjects(chs);
      ChannelValues(chs[..|chs| - 1]) + [ChannelValue(chs[|chs| - 1])]
  }

  /** No two channels share a data object. */
  ghost predicate OwnData(chs: seq<Channel>) {
    forall i, j | 0 <= i < j < |chs| :: chs[i].data != null ==> chs[i].data != chs[j].data
  }

  ghost function MenuObjects(m: MenuSnapshot?): set<object> {
    if m == null then {} else {m, m.entries, m.legacy}
  }

  ghost function ImageObjects(r: RawImage?): set<object> {
    if r == null then {} else {r, r.bytes}
  }

  function MenuValue(m: MenuSnapshot?): Option<MenuContents>
    reads MenuObjects(m)
  {
    if m == null then None else Some(MenuContents(m.descriptor, m.complete, m.entries[..], m.legacy[..]))
  }

  function ImageValue(r: RawImage?): Option<ImageContents>
    reads ImageObjects(r)
  {
    if r == null then None else Some(ImageContents(r.model, r.profileId, r.bytes[..]))
  }

  class Codeplug {
    var header: Header
    var channels: array<Channel>
    var menus: MenuSnapshot?
    var failed: array<int>
    var raw: RawImage?

    /** Every object the codeplug is made of. */
    ghost var repr: set<object>

    constructor (header: Header, channels: array<Channel>, menus: MenuSnapshot?, failed: array<int>, raw: RawImage?)
      ensures this.header == header && this.channels == channels && this.menus == menus
      ensures this.failed == failed && this.raw == raw
      ensures Valid() && repr == {this} + Parts()
      ensures View() == Contents(header, old(ChannelValues(channels[..])), old(MenuValue(menus)), old(failed[..]),
                                 old(ImageValue(raw)))
    {
      this.header, this.channels, this.menus, this.failed, this.raw := header, channels, menus, failed, raw;
      new;
      repr := {this} + Parts();
    }

    ghost function Parts(): set<object>
      reads this, channels
    {
      var data: set<object> := DataObjects(channels[..]);
      MenuObjects(menus) + ImageObjects(raw) + data + {channels, failed}
    }

    /** Takes further objects into the codeplug's own. */
    ghost method Adopt(objects: set<object>)
      modifies this`repr
      ensures repr == old(repr) + objects
      ensures ChannelValues(channels[..]) == old(ChannelValues(channels[..])) && failed[..] == old(failed[..])
      ensures MenuValue(menus) == old(MenuValue(menus)) && ImageValue(raw) == old(ImageValue(raw))
    {
      repr := repr + objects;
    }

    /** Another slice takes the place of the channels. */
    method TakeChannels(slice: array<Channel>)
      modifies this`channels, this`repr
      ensures channels == slice && repr == old(repr) + {slice} + DataObjects(slice[..])
      ensures ChannelValues(slice[..]) == old(ChannelValues(slice[..])) && failed[..] == old(failed[..])
      ensures MenuValue(menus) == old(MenuValue(menus)) && ImageValue(raw) == old(ImageValue(raw))
    {
      channels := slice;
      repr := repr + {slice} + DataObjects(slice[..]);
    }

    ghost predicate Valid()
      reads this, repr
    {
      {this, channels} <= repr && Parts() <= repr
    }

    ghost function View(): Contents
      requires Valid()
      reads this, repr
    {
      Contents(header, ChannelValues(channels[..]), MenuValue(menus), failed[..], ImageValue(raw))
    }
  }

  /** Writing elsewhere leaves a codeplug as it was. */
  twostate lemma ViewKept(cp: Codeplug)
    requires allocated(cp) && old(cp.Valid()) && unchanged(old(cp.repr))
    ensures cp.Valid() && cp.View() == old(cp.View())
  {
  }

  /** Only the channels have changed: their slice, or what is in it. */
  twostate lemma OnlyChannelsChanged(cp: Codeplug)
    requires allocated(cp) && old(cp.Valid())
    requires unchanged(cp`header, cp`menus, cp`failed, cp`raw)
    requires cp.failed[..] == old(cp.failed[..])
    requires MenuValue(cp.menus) == old(MenuValue(cp.menus)) && ImageValue(cp.raw) == old(ImageValue(cp.raw))
    requires old(cp.repr) + {cp.channels} + DataObjects(cp.channels[..]) <= cp.repr
    ensures cp.Valid() && cp.View() == old(cp.View()).(channels := ChannelValues(cp.channels[..]))
  {
  }

  twostate lemma ValuesKept(chs: seq<Channel>)
    requires unchanged(DataObjects(chs))
    ensures ChannelValues(chs) == old(ChannelValues(chs))
  {
  }

  method CopyChannelData(d: ChannelData?) returns (cp: ChannelData?)
    ensures d == null ==> cp == null
    ensures d != null ==> cp != null && fresh(cp) && cp.fields == d.fields
  {
    if d == null {
      return null;
    }
    cp := new ChannelData(d.fields);
  }

  method CopyChannels(channels: array<Channel>) returns (out: array<Channel>, ghost data: set<ChannelData>)
    ensures fresh(out) && fresh(data) && DataObjects(out[..]) <= data && OwnData(out[..])
    ensures ChannelValues(out[..]) == old(ChannelValues(channels[..]))
  {
    out := new Channel[channels.Length](_ => Channel("", null));
    data := {};
    var i := 0;
    while i < channels.Length
      invariant 0 <= i <= channels.Length
      invariant fresh(data) && forall k | 0 <= k < i :: out[k].data != null ==> out[k].data in data
      invariant forall k | 0 <= k < i :: ChannelValue(out[k]) == old(ChannelValue(channels[k]))
      invariant OwnData(out[..i])
      invariant forall k | 0 <= k < channels.Length :: channels[k] == old(channels[k])
      invariant forall k | i <= k < channels.Length :: out[k] == Channel("", null)
    {
      var d := CopyChannelData(channels[i].data);
      if d != null {
        data := data + {d};
      }
      out[i] := Channel(channels[i].slot, d);
      i := i + 1;
    }
  }

  method CopyArray(a: array<int>) returns (out: array<int>)
    ensures fresh(out) && out[..] == a[..]
  {
    out := new int[a.Length](i requires 0 <= i < a.Length reads a => a[i]);
  }

  method CloneMenus(m: MenuSnapshot?) returns (out: MenuSnapshot?)
    ensures fresh(MenuObjects(out)) && MenuValue(out) == MenuValue(m)
  {
    if m == null {
      return null;
    }
    var entries := CopyArray(m.entries);
    var legacy := CopyArray(m.legacy);
    out := new MenuSnapshot(m.descriptor, m.complete, entries, legacy);
  }

  method CloneImage(r: RawImage?) returns (out: RawImage?)
    ensures fresh(ImageObjects(out)) && ImageValue(out) == ImageValue(r)
  {
    if r == null {
      return null;
    }
    var bytes := CopyArray(r.bytes);
    out := new RawImage(r.model, r.profileId, bytes);
  }

  /** The parts of a codeplug that hold no pointers of their own. */
  method CloneLeaves(cp: Codeplug)
    returns (menus: MenuSnapshot?, failed: array<int>, raw: RawImage?, ghost leaves: set<object>)
    ensures fresh(leaves) && failed in leaves && MenuObjects(menus) <= leaves && ImageObjects(raw) <= leaves
    ensures MenuValue(menus) == MenuValue(cp.menus) && failed[..] == cp.failed[..]
    ensures ImageValue(raw) == ImageValue(cp.raw)
  {
    menus := CloneMenus(cp.menus);
    failed := CopyArray(cp.failed);
    raw := CloneImage(cp.raw);
    leaves := {failed} + MenuObjects(menus) + ImageObjects(raw);
  }

  /** The parts of a copy, all new, with the contents of the original's. */
  method CopyParts(cp: Codeplug)
    returns (channels: array<Channel>, menus: MenuSnapshot?, failed: array<int>, raw: RawImage?,
             ghost parts: set<object>)
    requires cp.Valid()
    ensures fresh(parts) && channels in parts && failed in parts && DataObjects(channels[..]) <= parts
    ensures MenuObjects(menus) <= parts && ImageObjects(raw) <= parts
    ensures ChannelValues(channels[..]) == old(ChannelValues(cp.channels[..])) && failed[..] == old(cp.failed[..])
    ensures MenuValue(menus) == old(MenuValue(cp.menus)) && ImageValue(raw) == old(ImageValue(cp.raw))
  {
    ghost var data, leaves;
    menus, failed, raw, leaves := CloneLeaves(cp);
    channels, data := CopyChannels(cp.channels);
    parts := leaves + {channels} + data;
  }

  method DeepCopyCodeplug(cp: Codeplug?) returns (out: Codeplug?)
    requires cp != null ==> cp.Valid()
    ensures cp == null ==> out == null
    ensures cp != null ==> out != null && out.Valid() && fresh(out) && fresh(out.repr) && out.View() == old(cp.View())
  {
    if cp == null {
      return null;
    }
    var channels, menus, failed, raw, parts := CopyParts(cp);
    out := new Codeplug(cp.header, channels, menus, failed, raw);
  }
}
