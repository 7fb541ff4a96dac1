/** What a server writes for each data component (`understudy/components.go` steps over it),
one constructor for each payload, with the component ids and the fields written out. Nothing
here is taken from the shapes the skippers are proved against; the theorem is that each of
those shapes steps over exactly the bytes of its payload. */
module Payloads {
  import opened Words
  import opened Wire
  import opened Shapes
  import opened ShapeCodec
  import Nbt

  // ------------------------------------------------------------------------- the values

  type Root = Option<Nbt.Tree>

  /** A tag, or ids. */
  datatype HolderSet = TagNamed(name: bytes) | Ids(ids: seq<int32>)

  datatype Rule = Rule(blocks: HolderSet, speed: Option<bytes>, drops: Option<bool>)
  datatype Test = Test(blocks: Option<HolderSet>, nbt: Option<Root>)
  datatype Modifier = Modifier(attribute: int32, name: bytes, amount: bytes, operation: int32, slots: int32,
                               display: int32, text: Root)
  datatype Property = Property(name: bytes, value: bytes, signature: Option<bytes>)
  datatype Page = Page(text: Root, filtered: Option<Root>)
  datatype Draft = Draft(text: bytes, filtered: Option<bytes>)
  datatype Burst = Burst(form: int32, colours: seq<bytes>, fades: seq<bytes>, trail: bool, twinkle: bool)
  datatype Bee = Bee(kind: int32, data: Root, ticks: int32, least: int32)
  datatype Stage = Stage(most: int32, speed: bytes, relative: bytes)
  datatype Person = Partial(name: Option<bytes>, uuid: Option<bytes>) | Full(tag: int32, whole: bytes, called: bytes)
  datatype Pair = Pair(first: int32, second: int32)
  datatype Entry = Entry(name: bytes, value: bytes)
  datatype Place = Place(dimension: bytes, position: bytes)

  datatype Payload =
    | Nothing
    | Number(n: int32)
    | Word(four: bytes)
    | Toggle(on: bool)
    | Data(root: Root)
    | Swing(animation: int32, ticks: int32)
    | UseEffects(sprint: bool, vibrate: bool, speed: bytes)
    | Label(text: bytes)
    | Sound(sound: int32)
    | Registry(flag: int32, holder: int32)
    | Repairs(set_: HolderSet)
    | TagOnly(set_: HolderSet)
    | Entity(kind: int32, root: Root)
    | Variant(flag: int32, id: int32)
    | Tests(tests: seq<Test>, shown: bool)
    | Tooltip(hidden: bool, parts: seq<int32>)
    | Food(nutrition: int32, saturation: bytes, always: bool)
    | Consumed(seconds: bytes, animation: int32, sound: int32, particles: bool)
    | Cooldown(seconds: bytes, group: Option<bytes>)
    | Tool(rules: seq<Rule>, speed: bytes, damage: int32, creative: bool)
    | Weapon(damage: int32, disables: bytes)
    | Reach(six: bytes)
    | Worn(slot: int32, sound: int32, asset: Option<bytes>, overlay: Option<bytes>, wearers: Option<HolderSet>,
           toggles: bytes, shearing: int32)
    | Protection
    | Guard(delay: bytes, scale: bytes, threshold: bytes, base: bytes, factor: bytes, bypass: Option<HolderSet>,
            block: Option<int32>, broken: Option<int32>)
    | Piercing(first: int32, second: int32, thrust: Option<int32>, hit: Option<int32>)
    | Kinetic(first: int32, wait: int32, one: Option<Stage>, two: Option<Stage>, three: Option<Stage>,
              forward: bytes, multiplier: bytes, thrust: Option<int32>, hit: Option<int32>)
    | Trimmed(material: int32, pattern: int32, shown: bool)
    | Exploding(burst: Burst)
    | Rocket(flight: int32, bursts: seq<Burst>)
    | Modifiers(modifiers: seq<Modifier>)
    | Hives(bees: seq<Bee>)
    | Lodestone(place: Option<Place>, tracked: bool)
    | Head(person: Person, properties: seq<Property>)
    | Book(title: bytes, filtered: Option<bytes>, author: bytes, generation: int32, pages: seq<Page>, resolved: bool)
    | Drafts(drafts: seq<Draft>)
    | Lore(lines: seq<Root>)
    | Model(floats: seq<bytes>, flags: seq<bool>, strings: seq<bytes>, colours: seq<bytes>)
    | Numbers(numbers: seq<int32>)
    | Entries(entries: seq<Entry>)
    | Banner(layers: seq<Pair>)
    | Pairs(pairs: seq<Pair>)
    | Potion(brew: Option<int32>, colour: Option<bytes>)
    | Held(gear: Gear)
    | Bundle(gears: Gears)
    | Bays(bays: Bays)

  /** An item inside an item. */
  datatype Gear = Gear(id: int32, count: int32, parts: Parts, removed: seq<int32>)
  datatype Parts = NoPart | Part(wire: int32, payload: Payload, rest: Parts)
  datatype Gears = NoGear | MoreGear(head: Gear, tail: Gears)
  datatype Bays = NoBay | EmptyBay(rest: Bays) | FullBay(gear: Gear, rest: Bays)

  function PartCount(ps: Parts): nat { match ps case NoPart => 0 case Part(_, _, rest) => 1 + PartCount(rest) }
  function GearCount(gs: Gears): nat { match gs case NoGear => 0 case MoreGear(_, tail) => 1 + GearCount(tail) }
  function BayCount(bs: Bays): nat {
    match bs case NoBay => 0 case EmptyBay(rest) => 1 + BayCount(rest) case FullBay(_, rest) => 1 + BayCount(rest)
  }

  // ------------------------------------------------------------------- what is encoded

  predicate Short(text: bytes) { |text| <= 131068 }
  predicate Fits31(n: nat) { n < 0x8000_0000 }
  predicate SetOk(s: HolderSet) { match s case TagNamed(name) => Short(name) case Ids(ids) => Fits31(|ids| + 1) }
  predicate OptShort(o: Option<bytes>) { o.Some? ==> Short(o.value) }
  predicate OptSized(o: Option<bytes>, n: nat) { o.Some? ==> |o.value| == n }
  predicate OptSet(o: Option<HolderSet>) { o.Some? ==> SetOk(o.value) }
  predicate OptSound(o: Option<int32>) { o.Some? ==> o.value != 0 }
  ghost predicate OptRoot(o: Option<Root>) { o.Some? ==> Nbt.RootFits(o.value) }
  predicate StageOk(o: Option<Stage>) { o.Some? ==> |o.value.speed| == 4 && |o.value.relative| == 4 }
  predicate Fours(xs: seq<bytes>) { Fits31(|xs|) && forall x | x in xs :: |x| == 4 }
  predicate BurstOk(b: Burst) { Fours(b.colours) && Fours(b.fades) }
  predicate RuleOk(r: Rule) { SetOk(r.blocks) && OptSized(r.speed, 4) }
  ghost predicate TestOk(t: Test) { OptSet(t.blocks) && OptRoot(t.nbt) }
  ghost predicate ModifierOk(m: Modifier) {
    Short(m.name) && |m.amount| == 8 && (m.display == 2 ==> Nbt.RootFits(m.text))
  }
  predicate PropertyOk(p: Property) { Short(p.name) && Short(p.value) && OptShort(p.signature) }
  ghost predicate PageOk(p: Page) { Nbt.RootFits(p.text) && OptRoot(p.filtered) }
  predicate DraftOk(p: Draft) { Short(p.text) && OptShort(p.filtered) }

  /** The payloads of each component, by canonical id, as this version's flags have them. */
  ghost predicate PayloadOf(e: Encoding, kind: int32, p: Payload)
  {
    match p
    case Nothing => kind in {4, 34}
    case Number(_) => kind in {1, 2, 3, 12, 19, 31, 43, 46, 63, 73}
    case Word(four) => kind in {7, 44, 45, 52} && |four| == 4
    case Toggle(_) => kind == 21
    case Data(root) => kind in {0, 6, 9, 22, 47, 57, 59, 66, 78, 79} && Nbt.RootFits(root)
    case Swing(_, _) => kind == 40
    case UseEffects(_, _, speed) => kind == 5 && |speed| == 4
    case Label(text) => kind in {10, 35, 71} && Short(text)
    case Sound(sound) => kind == 80 && sound != 0
    case Registry(flag, holder) => kind in {8, 61, 62, 64} && holder != 0
        && (e.registryRefsHaveLeadingFlag ==> flag != 0)
    case Repairs(set_) => kind == 33 && SetOk(set_)
    case TagOnly(set_) => kind in {27, 65} && SetOk(set_) && (e.tagsAreBareStrings ==> set_.TagNamed?)
    case Entity(_, root) => kind in {58, 60} && Nbt.RootFits(root)
    case Variant(flag, _) =>
      81 <= kind <= 109 && (kind in {97, 99} && e.registryRefsHaveLeadingFlag ==> flag != 0)
    case Tests(tests, _) => kind in {14, 15} && Fits31(|tests|) && forall t | t in tests :: TestOk(t)
    case Tooltip(_, parts) => kind == 18 && Fits31(|parts|)
    case Food(_, saturation, _) => kind == 23 && |saturation| == 4
    case Consumed(seconds, _, sound, _) => kind == 24 && |seconds| == 4 && sound != 0
    case Cooldown(seconds, group) => kind == 26 && |seconds| == 4 && OptShort(group)
    case Tool(rules, speed, _, _) => kind == 28 && Fits31(|rules|) && (forall r | r in rules :: RuleOk(r))
        && |speed| == 4
    case Weapon(_, disables) => kind == 29 && |disables| == 4
    case Reach(six) => kind == 30 && |six| == 24
    case Worn(_, sound, asset, overlay, wearers, toggles, shearing) =>
      && kind == 32 && sound != 0 && OptShort(asset) && OptShort(overlay) && OptSet(wearers)
      && (if e.equippableHasNoShearing then |toggles| == 3 else |toggles| == 5 && shearing != 0)
    case Protection => kind == 36
    case Guard(delay, scale, threshold, base, factor, bypass, block, broken) =>
      && kind == 37 && |delay| == |scale| == |threshold| == |base| == |factor| == 4
      && OptSet(bypass) && (e.tagsAreBareStrings && bypass.Some? ==> bypass.value.TagNamed?)
      && OptSound(block) && OptSound(broken)
    case Piercing(_, _, thrust, hit) => kind == 38 && OptSound(thrust) && OptSound(hit)
    case Kinetic(_, _, one, two, three, forward, multiplier, thrust, hit) =>
      && kind == 39 && StageOk(one) && StageOk(two) && StageOk(three) && |forward| == |multiplier| == 4
      && OptSound(thrust) && OptSound(hit)
    case Trimmed(material, pattern, _) => kind == 56 && material != 0 && pattern != 0
    case Exploding(burst) => kind == 68 && BurstOk(burst)
    case Rocket(_, bursts) => kind == 69 && Fits31(|bursts|) && forall b | b in bursts :: BurstOk(b)
    case Modifiers(modifiers) => kind == 16 && Fits31(|modifiers|) && forall m | m in modifiers :: ModifierOk(m)
    case Hives(bees) => kind == 77 && Fits31(|bees|) && forall b | b in bees :: Nbt.RootFits(b.data)
    case Lodestone(place, _) =>
      kind == 67 && (place.Some? ==> Short(place.value.dimension) && |place.value.position| == 8)
    case Head(person, properties) =>
      && kind == 70 && Fits31(|properties|) && (forall p | p in properties :: PropertyOk(p))
      && (match person
          case Partial(name, uuid) => OptShort(name) && OptSized(uuid, 16)
          case Full(tag, uuid, name) => !e.profileHasNoVariantTag && tag != 0 && |uuid| == 16 && Short(name))
    case Book(title, filtered, author, _, pages, _) =>
      && kind == 55 && Short(title) && OptShort(filtered) && Short(author)
      && Fits31(|pages|) && forall p | p in pages :: PageOk(p)
    case Drafts(drafts) => kind == 54 && Fits31(|drafts|) && forall p | p in drafts :: DraftOk(p)
    case Lore(lines) => kind == 11 && Fits31(|lines|) && forall r | r in lines :: Nbt.RootFits(r)
    case Model(floats, flags, strings, colours) =>
      && kind == 17 && Fours(floats) && Fits31(|flags|) && Fours(colours)
      && Fits31(|strings|) && forall t | t in strings :: Short(t)
    case Numbers(numbers) => kind == 74 && Fits31(|numbers|)
    case Entries(entries) => kind == 76 && Fits31(|entries|)
        && forall x | x in entries :: Short(x.name) && Short(x.value)
    case Banner(layers) => kind == 72 && Fits31(|layers|) && forall x | x in layers :: x.first != 0
    case Pairs(pairs) => kind in {13, 42, 53} && Fits31(|pairs|)
    case Potion(_, colour) => kind == 51 && OptSized(colour, 4)
    case Held(_) => kind in {25, 110}
    case Bundle(gears) => kind in {49, 50} && Fits31(GearCount(gears))
    case Bays(bays) => kind == 75 && Fits31(BayCount(bays))
  }

  /** Items nest no deeper than sixteen levels, and every part has a payload of its kind. */
  ghost predicate PayloadOk(v: Version, kind: int32, p: Payload, d: nat)
    decreases p
  {
    && PayloadOf(v.enc, kind, p)
    && match p
       case Held(gear) => GearOk(v, gear, d)
       case Bundle(gears) => GearsOk(v, gears, d)
       case Bays(bays) => BaysOk(v, bays, d)
       case _ => true
  }

  ghost predicate GearOk(v: Version, g: Gear, d: nat)
    decreases g
  {
    Fits31(PartCount(g.parts)) && Fits31(|g.removed|) && PartsOk(v, g.parts, d + 1)
  }

  ghost predicate PartsOk(v: Version, ps: Parts, d: nat)
    decreases ps
  {
    match ps
    case NoPart => true
    case Part(wire, payload, rest) =>
      && d <= 16 && CanonicalComponent(v, wire).Some?
      && PayloadOk(v, CanonicalComponent(v, wire).value, payload, d) && PartsOk(v, rest, d)
  }

  ghost predicate GearsOk(v: Version, gs: Gears, d: nat)
    decreases gs
  {
    match gs case NoGear => true case MoreGear(head, tail) => GearOk(v, head, d) && GearsOk(v, tail, d)
  }

  ghost predicate BaysOk(v: Version, bs: Bays, d: nat)
    decreases bs
  {
    match bs
    case NoBay => true
    case EmptyBay(rest) => BaysOk(v, rest, d)
    case FullBay(gear, rest) =>
      && (v.enc.nestedStacksCountFirst ==> gear.count != 0) && GearOk(v, gear, d) && BaysOk(v, rest, d)
  }

  // ------------------------------------------------------------------------ their bytes

  function Bool(b: bool): (s: bytes) ensures |s| == 1 { if b then [1] else [0] }

  function SetBytes(s: HolderSet): bytes {
    match s
    case TagNamed(name) => VarIntBytes(0) + TextBytes(name)
    case Ids(ids) => CountBytes(|ids| + 1) + VarIntsBytes(ids)
  }

  function OptText(o: Option<bytes>): bytes { match o case None => [0] case Some(t) => [1] + TextBytes(t) }
  function OptRaw(o: Option<bytes>): bytes { match o case None => [0] case Some(t) => [1] + t }
  function OptInt(o: Option<int32>): bytes { match o case None => [0] case Some(n) => [1] + VarIntBytes(n) }
  function OptBool(o: Option<bool>): bytes { match o case None => [0] case Some(b) => [1] + Bool(b) }
  function OptSetBytes(o: Option<HolderSet>): bytes { match o case None => [0] case Some(s) => [1] + SetBytes(s) }
  function OptRootBytes(o: Option<Root>): bytes { match o case None => [0] case Some(r) => [1] + Nbt.RootBytes(r) }

  /** Elements laid end to end, and the same behind their count. */
  function Flat<T>(xs: seq<T>, enc: T -> bytes): bytes { if xs == [] then [] else enc(xs[0]) + Flat(xs[1..], enc) }
  function Counted<T>(xs: seq<T>, enc: T -> bytes): bytes { CountBytes(|xs|) + Flat(xs, enc) }

  function Raw(x: bytes): bytes { x }
  function RuleBytes(r: Rule): bytes { SetBytes(r.blocks) + (OptRaw(r.speed) + OptBool(r.drops)) }
  function PairBytes(p: Pair): bytes { VarIntBytes(p.first) + VarIntBytes(p.second) }
  function EntryBytes(x: Entry): bytes { TextBytes(x.name) + TextBytes(x.value) }
  function PropertyBytes(p: Property): bytes { TextBytes(p.name) + (TextBytes(p.value) + OptText(p.signature)) }
  function PageBytes(p: Page): bytes { Nbt.RootBytes(p.text) + OptRootBytes(p.filtered) }
  function DraftBytes(p: Draft): bytes { TextBytes(p.text) + OptText(p.filtered) }
  function BurstBytes(b: Burst): bytes {
    VarIntBytes(b.form) + (Counted(b.colours, Raw) + (Counted(b.fades, Raw) + (Bool(b.trail) + Bool(b.twinkle))))
  }
  function ModifierBytes(m: Modifier): bytes {
    VarIntBytes(m.attribute) + (TextBytes(m.name) + (m.amount + (VarIntBytes(m.operation) + (VarIntBytes(m.slots) +
    (VarIntBytes(m.display) + if m.display == 2 then Nbt.RootBytes(m.text) else [])))))
  }
  function StageBytes(o: Option<Stage>): bytes {
    match o case None => [0] case Some(s) => [1] + (VarIntBytes(s.most) + (s.speed + s.relative))
  }
  /** Before block tests could match components, and since. */
  function OldTestBytes(t: Test): bytes { OptSetBytes(t.blocks) + ([0] + OptRootBytes(t.nbt)) }
  function TestBytes(t: Test): bytes {
    OptSetBytes(t.blocks) + ([0] + (OptRootBytes(t.nbt) + (VarIntBytes(0) + VarIntBytes(0))))
  }
  function BeeBytes(b: Bee): bytes {
    VarIntBytes(b.kind) + Nbt.RootBytes(b.data) + (VarIntBytes(b.ticks) + VarIntBytes(b.least))
  }
  function OldBeeBytes(b: Bee): bytes { Nbt.RootBytes(b.data) + (VarIntBytes(b.ticks) + VarIntBytes(b.least)) }

  function ProfileBytes(e: Encoding, person: Person, properties: seq<Property>): bytes {
    var rest := Counted(properties, PropertyBytes);
    match person
    case Partial(name, uuid) =>
      if e.profileHasNoVariantTag then OptText(name) + OptRaw(uuid) + rest
      else VarIntBytes(0) + (OptText(name) + OptRaw(uuid)) + (rest + ([0] + ([0] + ([0] + [0]))))
    case Full(tag, uuid, name) =>
      VarIntBytes(tag) + (uuid + TextBytes(name)) + (rest + ([0] + ([0] + ([0] + [0]))))
  }

  /** The payload of a component whose canonical id is `kind`. */
  function PayloadBytes(v: Version, kind: int32, p: Payload): bytes
    decreases p, 0
  {
    var e := v.enc;
    match p
    case Nothing => []
    case Number(n) => VarIntBytes(n)
    case Word(four) => four
    case Toggle(on) => Bool(on)
    case Data(root) => Nbt.RootBytes(root)
    case Swing(animation, ticks) => VarIntBytes(animation) + VarIntBytes(ticks)
    case UseEffects(sprint, vibrate, speed) => Bool(sprint) + (Bool(vibrate) + speed)
    case Label(text) => TextBytes(text)
    case Sound(sound) => VarIntBytes(sound)
    case Registry(flag, holder) =>
      if e.registryRefsHaveLeadingFlag then VarIntBytes(flag) + VarIntBytes(holder) else VarIntBytes(holder)
    case Repairs(set_) => SetBytes(set_)
    case TagOnly(set_) => if e.tagsAreBareStrings && set_.TagNamed? then TextBytes(set_.name) else SetBytes(set_)
    case Entity(entity, root) =>
      if e.entityDataKeepsTypeInNbt then Nbt.RootBytes(root) else VarIntBytes(entity) + Nbt.RootBytes(root)
    case Variant(flag, id) =>
      if kind in {97, 99} && e.registryRefsHaveLeadingFlag then VarIntBytes(flag) + VarIntBytes(id) else VarIntBytes(id)
    case Tests(tests, shown) =>
      if e.legacyBlockPredicates then Counted(tests, OldTestBytes) + Bool(shown) else Counted(tests, TestBytes)
    case Tooltip(hidden, parts) => Bool(hidden) + Counted(parts, VarIntBytes)
    case Food(nutrition, saturation, always) => VarIntBytes(nutrition) + (saturation + Bool(always))
    case Consumed(seconds, animation, sound, particles) =>
      seconds + (VarIntBytes(animation) + (VarIntBytes(sound) + (Bool(particles) + VarIntBytes(0))))
    case Cooldown(seconds, group) => seconds + OptText(group)
    case Tool(rules, speed, damage, creative) =>
      Counted(rules, RuleBytes) + (speed + (VarIntBytes(damage) + Bool(creative)))
    case Weapon(damage, disables) => VarIntBytes(damage) + disables
    case Reach(six) => six
    case Worn(slot, sound, asset, overlay, wearers, toggles, shearing) =>
      VarIntBytes(slot) + (VarIntBytes(sound) + (OptText(asset) + (OptText(overlay) + (OptSetBytes(wearers) +
      if e.equippableHasNoShearing then toggles else toggles + VarIntBytes(shearing)))))
    case Protection => VarIntBytes(0)
    case Guard(delay, scale, threshold, base, factor, bypass, block, broken) =>
      delay + (scale + (VarIntBytes(0) + (threshold + (base + (factor + (
      (if bypass.Some? && e.tagsAreBareStrings && bypass.value.TagNamed? then [1] + TextBytes(bypass.value.name)
       else OptSetBytes(bypass)) + (OptInt(block) + OptInt(broken))))))))
    case Piercing(first, second, thrust, hit) =>
      VarIntBytes(first) + (VarIntBytes(second) + (OptInt(thrust) + OptInt(hit)))
    case Kinetic(first, wait, one, two, three, forward, multiplier, thrust, hit) =>
      VarIntBytes(first) + (VarIntBytes(wait) + (StageBytes(one) + (StageBytes(two) + (StageBytes(three) +
      (forward + (multiplier + (OptInt(thrust) + OptInt(hit))))))))
    case Trimmed(material, pattern, shown) =>
      VarIntBytes(material) + (VarIntBytes(pattern) + if e.trimHasTooltipFlag then Bool(shown) else [])
    case Exploding(burst) => BurstBytes(burst)
    case Rocket(flight, bursts) => VarIntBytes(flight) + Counted(bursts, BurstBytes)
    case Modifiers(modifiers) => Counted(modifiers, ModifierBytes)
    case Hives(bees) => if e.entityDataKeepsTypeInNbt then Counted(bees, OldBeeBytes) else Counted(bees, BeeBytes)
    case Lodestone(place, tracked) =>
      (if place.Some? then [1] + (TextBytes(place.value.dimension) + place.value.position) else [0]) + Bool(tracked)
    case Head(person, properties) => ProfileBytes(e, person, properties)
    case Book(title, filtered, author, generation, pages, resolved) =>
      TextBytes(title) + (OptText(filtered) + (TextBytes(author) + (VarIntBytes(generation) +
      (Counted(pages, PageBytes) + Bool(resolved)))))
    case Drafts(drafts) => Counted(drafts, DraftBytes)
    case Lore(lines) => Counted(lines, Nbt.RootBytes)
    case Model(floats, flags, strings, colours) =>
      Counted(floats, Raw) + (Counted(flags, Bool) + (Counted(strings, TextBytes) + Counted(colours, Raw)))
    case Numbers(numbers) => Counted(numbers, VarIntBytes)
    case Entries(entries) => Counted(entries, EntryBytes)
    case Banner(layers) => Counted(layers, PairBytes)
    case Pairs(pairs) => Counted(pairs, PairBytes)
    case Potion(brew, colour) => OptInt(brew) + (OptRaw(colour) + (VarIntBytes(0) + VarIntBytes(0)))
    case Held(gear) => GearBytes(v, gear)
    case Bundle(gears) => CountBytes(GearCount(gears)) + GearsBytes(v, gears)
    case Bays(bays) => CountBytes(BayCount(bays)) + BaysBytes(v, bays)
  }

  function GearBytes(v: Version, g: Gear): bytes
    decreases g
  {
    (if v.enc.nestedStacksCountFirst then VarIntBytes(g.count) + VarIntBytes(g.id)
     else VarIntBytes(g.id) + VarIntBytes(g.count)) + GearTail(v, g)
  }

  function GearTail(v: Version, g: Gear): bytes
    decreases g, 0
  {
    CountBytes(PartCount(g.parts)) + (CountBytes(|g.removed|) + (PartsBytes(v, g.parts) + VarIntsBytes(g.removed)))
  }

  function PartsBytes(v: Version, ps: Parts): bytes
    decreases ps
  {
    match ps
    case NoPart => []
    case Part(wire, payload, rest) =>
      VarIntBytes(wire) + PartBytes(v, wire, payload) + PartsBytes(v, rest)
  }

  function PartBytes(v: Version, wire: int32, payload: Payload): bytes
    decreases payload, 1
  {
    match CanonicalComponent(v, wire) case None => [] case Some(kind) => PayloadBytes(v, kind, payload)
  }

  function GearsBytes(v: Version, gs: Gears): bytes
    decreases gs
  {
    match gs case NoGear => [] case MoreGear(head, tail) => GearBytes(v, head) + GearsBytes(v, tail)
  }

  function BaysBytes(v: Version, bs: Bays): bytes
    decreases bs
  {
    match bs
    case NoBay => []
    case EmptyBay(rest) => [0] + BaysBytes(v, rest)
    case FullBay(gear, rest) =>
      (if v.enc.nestedStacksCountFirst then GearBytes(v, gear) else [1] + GearBytes(v, gear)) + BaysBytes(v, rest)
  }

  // ------------------------------------------------------------------ stepping over them

  /** The shape steps over exactly these bytes, whatever follows. */
  ghost predicate Skips(v: Version, sh: Shape, d: nat, bs: bytes)
    requires d <= COMPONENT_DEPTH
  {
    forall rest: bytes {:trigger bs + rest} :: Run(v, sh, d, At(bs + rest)) == At(rest)
  }

  lemma SkipsIs(v: Version, sh: Shape, d: nat, bs: bytes, rest: bytes)
    requires d <= COMPONENT_DEPTH && Skips(v, sh, d, bs)
    ensures Run(v, sh, d, At(bs + rest)) == At(rest)
  {
  }

  lemma LeafSkips(v: Version, d: nat)
    requires d <= COMPONENT_DEPTH
    ensures Skips(v, Empty, d, [])
    ensures forall n: int32 {:trigger VarIntBytes(n)} :: Skips(v, VarInt, d, VarIntBytes(n))
    ensures forall bs: bytes, n: nat {:trigger Skips(v, Fixed(n), d, bs)} :: |bs| == n ==> Skips(v, Fixed(n), d, bs)
    ensures forall t: bytes {:trigger TextBytes(t)} :: Short(t) ==> Skips(v, Text, d, TextBytes(t))
    ensures forall root: Root {:trigger Nbt.RootBytes(root)} ::
              Nbt.RootFits(root) ==> Skips(v, Tag, d, Nbt.RootBytes(root))
    ensures forall s: HolderSet {:trigger SetBytes(s)} :: SetOk(s) ==> Skips(v, IdSet, d, SetBytes(s))
  {
    hide Nbt.TagSpan, VarIntBytes, TextBytes, SetBytes, AfterIdSet, Nbt.RootBytes;
    forall n: int32, rest: bytes ensures Run(v, VarInt, d, At(VarIntBytes(n) + rest)) == At(rest) { VarIntAt(n, rest); }
    forall bs: bytes, rest: bytes ensures Run(v, Fixed(|bs|), d, At(bs + rest)) == At(rest) { SkipAt(bs, rest); }
    forall t: bytes, rest: bytes | Short(t)
      ensures Run(v, Text, d, At(TextBytes(t) + rest)) == At(rest)
    {
      TextAt(t, rest);
    }
    forall root: Root, rest: bytes | Nbt.RootFits(root)
      ensures Run(v, Tag, d, At(Nbt.RootBytes(root) + rest)) == At(rest)
    {
      Nbt.RootSkipped(root, rest);
      SkipAt(Nbt.RootBytes(root), rest);
    }
    forall s: HolderSet, rest: bytes | SetOk(s) ensures Run(v, IdSet, d, At(SetBytes(s) + rest)) == At(rest) {
      SetSkipped(s, rest);
    }
    forall rest: bytes ensures Run(v, Empty, d, At([] + rest)) == At(rest) { assert [] + rest == rest; }
  }

  lemma SetSkipped(s: HolderSet, rest: bytes)
    requires SetOk(s)
    ensures AfterIdSet(At(SetBytes(s) + rest)) == At(rest)
  {
    IdSetAt(match s case TagNamed(name) => Val.TagNamed(name) case Ids(ids) => Val.Ids(ids), rest);
  }

  lemma SeqSkips(v: Version, d: nat)
    requires d <= COMPONENT_DEPTH
    ensures forall a: Shape, b: Shape, x: bytes, y: bytes {:trigger Skips(v, Seq(a, b), d, x + y)} ::
              Skips(v, a, d, x) && Skips(v, b, d, y) ==> Skips(v, Seq(a, b), d, x + y)
  {
    forall a: Shape, b: Shape, x: bytes, y: bytes, rest: bytes | Skips(v, a, d, x) && Skips(v, b, d, y)
      ensures Run(v, Seq(a, b), d, At(x + y + rest)) == At(rest)
    {
      assert x + y + rest == x + (y + rest);
    }
  }

  lemma HolderSkips(v: Version, d: nat)
    requires d <= COMPONENT_DEPTH
    ensures forall n: int32 {:trigger VarIntBytes(n)} :: n != 0 ==> Skips(v, HOLDER, d, VarIntBytes(n))
    ensures Skips(v, NONE_OF, d, VarIntBytes(0))
  {
    hide VarIntBytes;
    forall n: int32, rest: bytes
      ensures n != 0 ==> Run(v, HOLDER, d, At(VarIntBytes(n) + rest)) == At(rest)
      ensures n == 0 ==> Run(v, NONE_OF, d, At(VarIntBytes(n) + rest)) == At(rest)
    {
      VarIntAt(n, rest);
    }
  }

  lemma CaseStep(v: Version, d: nat, k: int32, a: Shape, b: Shape, n: int32, x: bytes)
    requires d <= COMPONENT_DEPTH && Skips(v, if n == k then a else b, d, x)
    ensures Skips(v, Case(k, a, b), d, VarIntBytes(n) + x)
  {
    hide VarIntBytes;
    forall rest: bytes ensures Run(v, Case(k, a, b), d, At(VarIntBytes(n) + x + rest)) == At(rest) {
      assert VarIntBytes(n) + x + rest == VarIntBytes(n) + (x + rest);
      VarIntAt(n, x + rest);
    }
  }

  lemma SeqStep(v: Version, d: nat, a: Shape, b: Shape, x: bytes, y: bytes)
    requires d <= COMPONENT_DEPTH && Skips(v, a, d, x) && Skips(v, b, d, y)
    ensures Skips(v, Seq(a, b), d, x + y)
  {
    SeqSkips(v, d);
  }

  lemma OptionalSkips(v: Version, d: nat)
    requires d <= COMPONENT_DEPTH
    ensures forall b: Shape {:trigger Optional(b)} :: Skips(v, Optional(b), d, [0])
    ensures forall b: Shape, x: bytes {:trigger Skips(v, Optional(b), d, [1] + x)} ::
              Skips(v, b, d, x) ==> Skips(v, Optional(b), d, [1] + x)
  {
    forall b: Shape, rest: bytes ensures Run(v, Optional(b), d, At([0] + rest)) == At(rest) { FlagAt(0, rest); }
    forall b: Shape, x: bytes, rest: bytes | Skips(v, b, d, x)
      ensures Run(v, Optional(b), d, At([1] + x + rest)) == At(rest)
    {
      assert [1] + x + rest == [1] + (x + rest);
      FlagAt(1, x + rest);
    }
  }

  /** Optional fields of each type. */
  lemma FieldSkips(v: Version, d: nat)
    requires d <= COMPONENT_DEPTH
    ensures forall o: Option<bytes> {:trigger OptText(o)} :: OptShort(o) ==> Skips(v, Optional(Text), d, OptText(o))
    ensures forall o: Option<bytes>, n: nat {:trigger Skips(v, Optional(Fixed(n)), d, OptRaw(o))} ::
              OptSized(o, n) ==> Skips(v, Optional(Fixed(n)), d, OptRaw(o))
    ensures forall o: Option<int32> {:trigger OptInt(o)} :: Skips(v, Optional(VarInt), d, OptInt(o))
    ensures forall o: Option<int32> {:trigger OptInt(o)} :: OptSound(o) ==> Skips(v, Optional(HOLDER), d, OptInt(o))
    ensures forall o: Option<bool> {:trigger OptBool(o)} :: Skips(v, Optional(FLAG), d, OptBool(o))
    ensures forall o: Option<HolderSet> {:trigger OptSetBytes(o)} ::
              OptSet(o) ==> Skips(v, Optional(IdSet), d, OptSetBytes(o))
    ensures forall o: Option<Root> {:trigger OptRootBytes(o)} ::
              OptRoot(o) ==> Skips(v, Optional(Tag), d, OptRootBytes(o))
  {
    LeafSkips(v, d);
    HolderSkips(v, d);
    OptionalSkips(v, d);
    hide Skips, VarIntBytes, TextBytes, SetBytes, Nbt.RootBytes;
  }

  lemma {:induction false} ManySkips<T>(v: Version, e: Shape, d: nat, xs: seq<T>, enc: T -> bytes, rest: bytes)
    requires d <= COMPONENT_DEPTH && forall x | x in xs :: enc(x) != [] && Skips(v, e, d, enc(x))
    ensures RunMany(v, e, |xs|, d, At(Flat(xs, enc) + rest)) == At(rest) && |Flat(xs, enc)| >= |xs|
    decreases |xs|
  {
    hide Run;
    if xs == [] {
      assert Flat(xs, enc) + rest == rest;
    } else {
      assert xs[0] in xs;
      SkipsIs(v, e, d, enc(xs[0]), Flat(xs[1..], enc) + rest);
      assert Flat(xs, enc) + rest == enc(xs[0]) + (Flat(xs[1..], enc) + rest);
      ManySkips(v, e, d, xs[1..], enc, rest);
    }
  }

  lemma ListSkips<T>(v: Version, e: Shape, d: nat, xs: seq<T>, enc: T -> bytes)
    requires d <= COMPONENT_DEPTH && Fits31(|xs|) && forall x | x in xs :: enc(x) != [] && Skips(v, e, d, enc(x))
    ensures Skips(v, ListOf(e), d, Counted(xs, enc))
  {
    hide ListCount, AfterCount, CountBytes, RunMany, Flat;
    forall rest: bytes ensures Run(v, ListOf(e), d, At(Counted(xs, enc) + rest)) == At(rest) {
      ManySkips(v, e, d, xs, enc, rest);
      assert Counted(xs, enc) + rest == CountBytes(|xs|) + (Flat(xs, enc) + rest);
      CountAt(|xs|, Flat(xs, enc) + rest);
    }
  }

  // ---------------------------------------------------------------- every component

  lemma LeafPayload(v: Version, kind: int32, p: Payload, d: nat)
    requires d <= COMPONENT_DEPTH && PayloadOf(v.enc, kind, p)
    requires p.Nothing? || p.Number? || p.Word? || p.Toggle?
    ensures Skips(v, ComponentShape(v.enc, kind), d, PayloadBytes(v, kind, p))
  {
    LeafSkips(v, d);
    hide Skips, VarIntBytes, TextBytes, SetBytes, Counted, Nbt.RootBytes, Nbt.RootFits;
  }

  lemma TextPayload(v: Version, kind: int32, p: Payload, d: nat)
    requires d <= COMPONENT_DEPTH && PayloadOf(v.enc, kind, p)
    requires p.Data? || p.Label? || p.Repairs? || p.Reach?
    ensures Skips(v, ComponentShape(v.enc, kind), d, PayloadBytes(v, kind, p))
  {
    LeafSkips(v, d);
    hide Skips, VarIntBytes, TextBytes, SetBytes, Counted, Nbt.RootBytes, Nbt.RootFits;
  }

  lemma SoundPayload(v: Version, kind: int32, p: Payload, d: nat)
    requires d <= COMPONENT_DEPTH && PayloadOf(v.enc, kind, p)
    requires p.Sound? || p.Protection?
    ensures Skips(v, ComponentShape(v.enc, kind), d, PayloadBytes(v, kind, p))
  {
    HolderSkips(v, d);
    hide Skips, VarIntBytes, TextBytes, SetBytes, Counted, Nbt.RootBytes, Nbt.RootFits;
  }

  lemma RegistryPayload(v: Version, kind: int32, p: Payload, d: nat)
    requires d <= COMPONENT_DEPTH && PayloadOf(v.enc, kind, p)
    requires p.Registry?
    ensures Skips(v, ComponentShape(v.enc, kind), d, PayloadBytes(v, kind, p))
  {
    assert ComponentShape(v.enc, kind) == FlaggedHolder(v.enc);
    hide ComponentShape, StructuredShape;
    SeqSkips(v, d);
    HolderSkips(v, d);
    hide Skips, VarIntBytes, TextBytes, SetBytes, Counted, Nbt.RootBytes, Nbt.RootFits;
  }

  lemma TagPayload(v: Version, kind: int32, p: Payload, d: nat)
    requires d <= COMPONENT_DEPTH && PayloadOf(v.enc, kind, p)
    requires p.TagOnly?
    ensures Skips(v, ComponentShape(v.enc, kind), d, PayloadBytes(v, kind, p))
  {
    assert ComponentShape(v.enc, kind) == TagName(v.enc);
    hide ComponentShape, StructuredShape;
    LeafSkips(v, d);
    hide Skips, VarIntBytes, TextBytes, SetBytes, Counted, Nbt.RootBytes, Nbt.RootFits;
  }

  lemma EntityPayload(v: Version, kind: int32, p: Payload, d: nat)
    requires d <= COMPONENT_DEPTH && PayloadOf(v.enc, kind, p)
    requires p.Entity?
    ensures Skips(v, ComponentShape(v.enc, kind), d, PayloadBytes(v, kind, p))
  {
    assert ComponentShape(v.enc, kind) == EntityData(v.enc);
    hide ComponentShape, StructuredShape;
    LeafSkips(v, d);
    SeqSkips(v, d);
    hide Skips, VarIntBytes, TextBytes, SetBytes, Counted, Nbt.RootBytes, Nbt.RootFits;
  }

  lemma VariantPayload(v: Version, kind: int32, p: Payload, d: nat)
    requires d <= COMPONENT_DEPTH && PayloadOf(v.enc, kind, p)
    requires p.Variant?
    ensures Skips(v, ComponentShape(v.enc, kind), d, PayloadBytes(v, kind, p))
  {
    assert ComponentShape(v.enc, kind) == EntityVariant(v.enc, kind);
    hide ComponentShape, StructuredShape;
    LeafSkips(v, d);
    SeqSkips(v, d);
    HolderSkips(v, d);
    hide Skips, VarIntBytes, TextBytes, SetBytes, Counted, Nbt.RootBytes, Nbt.RootFits;
  }

  lemma SwingPayload(v: Version, kind: int32, p: Payload, d: nat)
    requires d <= COMPONENT_DEPTH && PayloadOf(v.enc, kind, p)
    requires p.Swing? || p.Weapon?
    ensures Skips(v, ComponentShape(v.enc, kind), d, PayloadBytes(v, kind, p))
  {
    LeafSkips(v, d);
    SeqSkips(v, d);
    hide Skips, VarIntBytes, TextBytes, SetBytes, Counted, Nbt.RootBytes, Nbt.RootFits;
  }

  lemma EffectsPayload(v: Version, kind: int32, p: Payload, d: nat)
    requires d <= COMPONENT_DEPTH && PayloadOf(v.enc, kind, p)
    requires p.UseEffects? || p.Food?
    ensures Skips(v, ComponentShape(v.enc, kind), d, PayloadBytes(v, kind, p))
  {
    LeafSkips(v, d);
    SeqSkips(v, d);
    hide Skips, VarIntBytes, TextBytes, SetBytes, Counted, Nbt.RootBytes, Nbt.RootFits;
  }

  lemma CooldownPayload(v: Version, kind: int32, p: Payload, d: nat)
    requires d <= COMPONENT_DEPTH && PayloadOf(v.enc, kind, p)
    requires p.Cooldown?
    ensures Skips(v, ComponentShape(v.enc, kind), d, PayloadBytes(v, kind, p))
  {
    LeafSkips(v, d);
    SeqSkips(v, d);
    FieldSkips(v, d);
    hide Skips, VarIntBytes, TextBytes, SetBytes, Counted, Nbt.RootBytes, Nbt.RootFits;
  }

  lemma ConsumedPayload(v: Version, kind: int32, p: Payload, d: nat)
    requires d <= COMPONENT_DEPTH && PayloadOf(v.enc, kind, p)
    requires p.Consumed?
    ensures Skips(v, ComponentShape(v.enc, kind), d, PayloadBytes(v, kind, p))
  {
    assert ComponentShape(v.enc, kind) == CONSUMABLE;
    hide ComponentShape, StructuredShape;
    LeafSkips(v, d);
    SeqSkips(v, d);
    HolderSkips(v, d);
    hide Skips, VarIntBytes, TextBytes, SetBytes, Counted, Nbt.RootBytes, Nbt.RootFits;
  }

  lemma PotionPayload(v: Version, kind: int32, p: Payload, d: nat)
    requires d <= COMPONENT_DEPTH && PayloadOf(v.enc, kind, p)
    requires p.Potion?
    ensures Skips(v, ComponentShape(v.enc, kind), d, PayloadBytes(v, kind, p))
  {
    assert ComponentShape(v.enc, kind) == POTION_CONTENTS;
    hide ComponentShape, StructuredShape;
    SeqSkips(v, d);
    HolderSkips(v, d);
    FieldSkips(v, d);
    hide Skips, VarIntBytes, TextBytes, SetBytes, Counted, Nbt.RootBytes, Nbt.RootFits;
  }

  lemma TrimPayload(v: Version, kind: int32, p: Payload, d: nat)
    requires d <= COMPONENT_DEPTH && PayloadOf(v.enc, kind, p)
    requires p.Trimmed?
    ensures Skips(v, ComponentShape(v.enc, kind), d, PayloadBytes(v, kind, p))
  {
    assert ComponentShape(v.enc, kind) == Trim(v.enc);
    hide ComponentShape, StructuredShape;
    LeafSkips(v, d);
    SeqSkips(v, d);
    HolderSkips(v, d);
    hide Skips, VarIntBytes, TextBytes, SetBytes, Counted, Nbt.RootBytes, Nbt.RootFits;
  }

  lemma WornPayload(v: Version, kind: int32, p: Payload, d: nat)
    requires d <= COMPONENT_DEPTH && PayloadOf(v.enc, kind, p)
    requires p.Worn?
    ensures Skips(v, ComponentShape(v.enc, kind), d, PayloadBytes(v, kind, p))
  {
    assert ComponentShape(v.enc, kind) == Equippable(v.enc);
    hide ComponentShape, StructuredShape;
    LeafSkips(v, d);
    HolderSkips(v, d);
    FieldSkips(v, d);
    hide Skips, VarIntBytes, TextBytes, SetBytes, Counted, Nbt.RootBytes, Nbt.RootFits;
    var plain := v.enc.equippableHasNoShearing;
    var tail := if plain then p.toggles else p.toggles + VarIntBytes(p.shearing);
    var end := if plain then Fixed(3) else Seq(Fixed(5), HOLDER);
    if !plain { SeqStep(v, d, Fixed(5), HOLDER, p.toggles, VarIntBytes(p.shearing)); }
    SeqStep(v, d, Optional(IdSet), end, OptSetBytes(p.wearers), tail);
    var tail1, end1 := OptSetBytes(p.wearers) + tail, Seq(Optional(IdSet), end);
    SeqStep(v, d, Optional(Text), end1, OptText(p.overlay), tail1);
    var tail2, end2 := OptText(p.overlay) + tail1, Seq(Optional(Text), end1);
    SeqStep(v, d, Optional(Text), end2, OptText(p.asset), tail2);
    var tail3, end3 := OptText(p.asset) + tail2, Seq(Optional(Text), end2);
    SeqStep(v, d, HOLDER, end3, VarIntBytes(p.sound), tail3);
    SeqStep(v, d, VarInt, Seq(HOLDER, end3), VarIntBytes(p.slot), VarIntBytes(p.sound) + tail3);
  }

  lemma GuardPayload(v: Version, kind: int32, p: Payload, d: nat)
    requires d <= COMPONENT_DEPTH && PayloadOf(v.enc, kind, p)
    requires p.Guard?
    ensures Skips(v, ComponentShape(v.enc, kind), d, PayloadBytes(v, kind, p))
  {
    assert ComponentShape(v.enc, kind) == BlocksAttacks(v.enc);
    hide ComponentShape, StructuredShape;
    LeafSkips(v, d);
    HolderSkips(v, d);
    FieldSkips(v, d);
    hide Skips, VarIntBytes, TextBytes, SetBytes, Counted, Nbt.RootBytes, Nbt.RootFits;
    var tag := if p.bypass.Some? && v.enc.tagsAreBareStrings && p.bypass.value.TagNamed?
               then [1] + TextBytes(p.bypass.value.name) else OptSetBytes(p.bypass);
    BypassSkips(v, d, p.bypass);
    var sounds := OptInt(p.block) + OptInt(p.broken);
    SeqStep(v, d, Optional(HOLDER), Optional(HOLDER), OptInt(p.block), OptInt(p.broken));
    SeqStep(v, d, Optional(TagName(v.enc)), TWO_SOUNDS, tag, sounds);
    var end := Seq(Optional(TagName(v.enc)), TWO_SOUNDS);
    SeqStep(v, d, F32, end, p.factor, tag + sounds);
    SeqStep(v, d, F32, Seq(F32, end), p.base, p.factor + (tag + sounds));
    var tail := p.base + (p.factor + (tag + sounds));
    SeqStep(v, d, F32, Seq(F32, Seq(F32, end)), p.threshold, tail);
    var end1 := Seq(F32, Seq(F32, Seq(F32, end)));
    SeqStep(v, d, NONE_OF, end1, VarIntBytes(0), p.threshold + tail);
    var tail1 := VarIntBytes(0) + (p.threshold + tail);
    SeqStep(v, d, F32, Seq(NONE_OF, end1), p.scale, tail1);
    SeqStep(v, d, F32, Seq(F32, Seq(NONE_OF, end1)), p.delay, p.scale + tail1);
  }

  lemma BypassSkips(v: Version, d: nat, o: Option<HolderSet>)
    requires d <= COMPONENT_DEPTH && OptSet(o) && (v.enc.tagsAreBareStrings && o.Some? ==> o.value.TagNamed?)
    ensures Skips(v, Optional(TagName(v.enc)), d,
                  if o.Some? && v.enc.tagsAreBareStrings && o.value.TagNamed? then [1] + TextBytes(o.value.name)
                  else OptSetBytes(o))
  {
    LeafSkips(v, d);
    OptionalSkips(v, d);
    hide Skips, TextBytes, SetBytes;
  }

  lemma PiercingPayload(v: Version, kind: int32, p: Payload, d: nat)
    requires d <= COMPONENT_DEPTH && PayloadOf(v.enc, kind, p)
    requires p.Piercing?
    ensures Skips(v, ComponentShape(v.enc, kind), d, PayloadBytes(v, kind, p))
  {
    assert ComponentShape(v.enc, kind) == PIERCING_WEAPON;
    hide ComponentShape, StructuredShape;
    LeafSkips(v, d);
    SeqSkips(v, d);
    FieldSkips(v, d);
    hide Skips, VarIntBytes, TextBytes, SetBytes, Counted, Nbt.RootBytes, Nbt.RootFits;
  }

  /** No encoding but that of nothing is empty. */
  lemma BytesThere()
    ensures forall n: int32 {:trigger VarIntBytes(n)} :: VarIntBytes(n) != []
    ensures forall t: bytes {:trigger TextBytes(t)} :: TextBytes(t) != []
    ensures forall s: HolderSet {:trigger SetBytes(s)} :: SetBytes(s) != []
    ensures forall root: Root {:trigger Nbt.RootBytes(root)} :: Nbt.RootBytes(root) != []
  {
    forall n: int32 ensures VarIntBytes(n) != [] { VarIntAt(n, []); }
  }

  lemma NumberSkips(v: Version, d: nat, n: int32)
    requires d <= COMPONENT_DEPTH
    ensures VarIntBytes(n) != [] && Skips(v, VarInt, d, VarIntBytes(n))
  {
    BytesThere();
    LeafSkips(v, d);
    hide Skips, VarIntBytes, TextBytes, SetBytes, Counted, Nbt.RootBytes, Nbt.RootFits;
  }

  lemma FourSkips(v: Version, d: nat, x: bytes)
    requires d <= COMPONENT_DEPTH && |x| == 4
    ensures Raw(x) != [] && Skips(v, F32, d, Raw(x))
  {
    BytesThere();
    LeafSkips(v, d);
    hide Skips, VarIntBytes, TextBytes, SetBytes, Counted, Nbt.RootBytes, Nbt.RootFits;
  }

  lemma BoolSkips(v: Version, d: nat, b: bool)
    requires d <= COMPONENT_DEPTH
    ensures Bool(b) != [] && Skips(v, FLAG, d, Bool(b))
  {
    BytesThere();
    LeafSkips(v, d);
    hide Skips, VarIntBytes, TextBytes, SetBytes, Counted, Nbt.RootBytes, Nbt.RootFits;
  }

  lemma LabelSkips(v: Version, d: nat, t: bytes)
    requires d <= COMPONENT_DEPTH && Short(t)
    ensures TextBytes(t) != [] && Skips(v, Text, d, TextBytes(t))
  {
    BytesThere();
    LeafSkips(v, d);
    hide Skips, VarIntBytes, TextBytes, SetBytes, Counted, Nbt.RootBytes, Nbt.RootFits;
  }

  lemma LineSkips(v: Version, d: nat, r: Root)
    requires d <= COMPONENT_DEPTH && Nbt.RootFits(r)
    ensures Nbt.RootBytes(r) != [] && Skips(v, Tag, d, Nbt.RootBytes(r))
  {
    BytesThere();
    LeafSkips(v, d);
    hide Skips, VarIntBytes, TextBytes, SetBytes, Counted, Nbt.RootBytes, Nbt.RootFits;
  }

  lemma PairSkips(v: Version, d: nat, x: Pair)
    requires d <= COMPONENT_DEPTH
    ensures PairBytes(x) != [] && Skips(v, Seq(VarInt, VarInt), d, PairBytes(x))
  {
    BytesThere();
    LeafSkips(v, d);
    SeqSkips(v, d);
    hide Skips, VarIntBytes, TextBytes, SetBytes, Counted, Nbt.RootBytes, Nbt.RootFits;
  }

  lemma LayerSkips(v: Version, d: nat, x: Pair)
    requires d <= COMPONENT_DEPTH && x.first != 0
    ensures PairBytes(x) != [] && Skips(v, Seq(HOLDER, VarInt), d, PairBytes(x))
  {
    BytesThere();
    LeafSkips(v, d);
    SeqSkips(v, d);
    HolderSkips(v, d);
    hide Skips, VarIntBytes, TextBytes, SetBytes, Counted, Nbt.RootBytes, Nbt.RootFits;
  }

  lemma EntrySkips(v: Version, d: nat, x: Entry)
    requires d <= COMPONENT_DEPTH && Short(x.name) && Short(x.value)
    ensures EntryBytes(x) != [] && Skips(v, Seq(Text, Text), d, EntryBytes(x))
  {
    BytesThere();
    LeafSkips(v, d);
    SeqSkips(v, d);
    hide Skips, VarIntBytes, TextBytes, SetBytes, Counted, Nbt.RootBytes, Nbt.RootFits;
  }

  lemma RuleSkips(v: Version, d: nat, x: Rule)
    requires d <= COMPONENT_DEPTH && RuleOk(x)
    ensures RuleBytes(x) != [] && Skips(v, TOOL_RULE, d, RuleBytes(x))
  {
    BytesThere();
    LeafSkips(v, d);
    SeqSkips(v, d);
    FieldSkips(v, d);
    hide Skips, VarIntBytes, TextBytes, SetBytes, Counted, Nbt.RootBytes, Nbt.RootFits;
  }

  lemma PropertySkips(v: Version, d: nat, x: Property)
    requires d <= COMPONENT_DEPTH && PropertyOk(x)
    ensures PropertyBytes(x) != [] && Skips(v, PROFILE_PROPERTY, d, PropertyBytes(x))
  {
    BytesThere();
    LeafSkips(v, d);
    SeqSkips(v, d);
    FieldSkips(v, d);
    hide Skips, VarIntBytes, TextBytes, SetBytes, Counted, Nbt.RootBytes, Nbt.RootFits;
  }

  lemma PageSkips(v: Version, d: nat, x: Page)
    requires d <= COMPONENT_DEPTH && PageOk(x)
    ensures PageBytes(x) != [] && Skips(v, WRITTEN_PAGE, d, PageBytes(x))
  {
    BytesThere();
    LeafSkips(v, d);
    SeqSkips(v, d);
    FieldSkips(v, d);
    hide Skips, VarIntBytes, TextBytes, SetBytes, Counted, Nbt.RootBytes, Nbt.RootFits;
  }

  lemma DraftSkips(v: Version, d: nat, x: Draft)
    requires d <= COMPONENT_DEPTH && DraftOk(x)
    ensures DraftBytes(x) != [] && Skips(v, Seq(Text, Optional(Text)), d, DraftBytes(x))
  {
    BytesThere();
    LeafSkips(v, d);
    SeqSkips(v, d);
    FieldSkips(v, d);
    hide Skips, VarIntBytes, TextBytes, SetBytes, Counted, Nbt.RootBytes, Nbt.RootFits;
  }

  lemma FoursSkip(v: Version, d: nat, xs: seq<bytes>)
    requires d <= COMPONENT_DEPTH && Fours(xs)
    ensures Skips(v, ListOf(F32), d, Counted(xs, Raw))
  {
    hide Skips, Counted;
    forall x | x in xs ensures Raw(x) != [] && Skips(v, F32, d, Raw(x)) { FourSkips(v, d, x); }
    ListSkips(v, F32, d, xs, Raw);
  }

  lemma BurstSkips(v: Version, d: nat, x: Burst)
    requires d <= COMPONENT_DEPTH && BurstOk(x)
    ensures BurstBytes(x) != [] && Skips(v, FIREWORK_EXPLOSION, d, BurstBytes(x))
  {
    BytesThere();
    LeafSkips(v, d);
    SeqSkips(v, d);
    hide Skips, VarIntBytes, TextBytes, SetBytes, Counted, Nbt.RootBytes, Nbt.RootFits;
    FoursSkip(v, d, x.colours);
    FoursSkip(v, d, x.fades);
  }

  lemma ModifierSkips(v: Version, d: nat, x: Modifier)
    requires d <= COMPONENT_DEPTH && ModifierOk(x)
    ensures ModifierBytes(x) != [] && Skips(v, ATTRIBUTE_MODIFIER, d, ModifierBytes(x))
  {
    BytesThere();
    LeafSkips(v, d);
    SeqSkips(v, d);
    hide Skips, VarIntBytes, TextBytes, SetBytes, Counted, Nbt.RootBytes, Nbt.RootFits;
    CaseStep(v, d, 2, Tag, Empty, x.display, if x.display == 2 then Nbt.RootBytes(x.text) else []);
  }

  lemma StageSkips(v: Version, d: nat, o: Option<Stage>)
    requires d <= COMPONENT_DEPTH && StageOk(o)
    ensures Skips(v, CONDITION, d, StageBytes(o))
  {
    LeafSkips(v, d);
    SeqSkips(v, d);
    OptionalSkips(v, d);
    hide Skips, VarIntBytes;
  }

  lemma TestSkips(v: Version, d: nat, x: Test)
    requires d <= COMPONENT_DEPTH && TestOk(x)
    ensures TestBytes(x) != [] && OldTestBytes(x) != []
    ensures Skips(v, BlockPredicate(v.enc), d, if v.enc.legacyBlockPredicates then OldTestBytes(x) else TestBytes(x))
  {
    LeafSkips(v, d);
    HolderSkips(v, d);
    OptionalSkips(v, d);
    FieldSkips(v, d);
    hide Skips, VarIntBytes, OptSetBytes, OptRootBytes;
    var nbt, none := OptRootBytes(x.nbt), VarIntBytes(0) + VarIntBytes(0);
    var end, tail := if v.enc.legacyBlockPredicates then Empty else Seq(NONE_OF, NONE_OF),
                     if v.enc.legacyBlockPredicates then [] else none;
    SeqStep(v, d, NONE_OF, NONE_OF, VarIntBytes(0), VarIntBytes(0));
    SeqStep(v, d, Optional(Tag), end, nbt, tail);
    SeqStep(v, d, UNSEEN, Seq(Optional(Tag), end), [0], nbt + tail);
    SeqStep(v, d, Optional(IdSet), Seq(UNSEEN, Seq(Optional(Tag), end)), OptSetBytes(x.blocks), [0] + (nbt + tail));
    assert nbt + [] == nbt;
  }

  lemma KineticPayload(v: Version, kind: int32, p: Payload, d: nat)
    requires d <= COMPONENT_DEPTH && PayloadOf(v.enc, kind, p)
    requires p.Kinetic?
    ensures Skips(v, ComponentShape(v.enc, kind), d, PayloadBytes(v, kind, p))
  {
    assert ComponentShape(v.enc, kind) == KINETIC_WEAPON;
    hide ComponentShape, StructuredShape;
    LeafSkips(v, d);
    HolderSkips(v, d);
    FieldSkips(v, d);
    hide Skips, VarIntBytes, TextBytes, SetBytes, Counted, Nbt.RootBytes, Nbt.RootFits;
    StageSkips(v, d, p.one);
    StageSkips(v, d, p.two);
    StageSkips(v, d, p.three);
    hide StageBytes, OptInt;
    var sounds := OptInt(p.thrust) + OptInt(p.hit);
    SeqStep(v, d, Optional(HOLDER), Optional(HOLDER), OptInt(p.thrust), OptInt(p.hit));
    SeqStep(v, d, F32, TWO_SOUNDS, p.multiplier, sounds);
    SeqStep(v, d, F32, Seq(F32, TWO_SOUNDS), p.forward, p.multiplier + sounds);
    var end, tail := Seq(F32, Seq(F32, TWO_SOUNDS)), p.forward + (p.multiplier + sounds);
    SeqStep(v, d, CONDITION, end, StageBytes(p.three), tail);
    SeqStep(v, d, CONDITION, Seq(CONDITION, end), StageBytes(p.two), StageBytes(p.three) + tail);
    var tail1 := StageBytes(p.two) + (StageBytes(p.three) + tail);
    SeqStep(v, d, CONDITION, Seq(CONDITION, Seq(CONDITION, end)), StageBytes(p.one), tail1);
    var end1 := Seq(CONDITION, Seq(CONDITION, Seq(CONDITION, end)));
    SeqStep(v, d, VarInt, end1, VarIntBytes(p.wait), StageBytes(p.one) + tail1);
    SeqStep(v, d, VarInt, Seq(VarInt, end1), VarIntBytes(p.first), VarIntBytes(p.wait) + (StageBytes(p.one) + tail1));
  }

  lemma BurstPayload(v: Version, kind: int32, p: Payload, d: nat)
    requires d <= COMPONENT_DEPTH && PayloadOf(v.enc, kind, p)
    requires p.Exploding?
    ensures Skips(v, ComponentShape(v.enc, kind), d, PayloadBytes(v, kind, p))
  {
    assert ComponentShape(v.enc, kind) == FIREWORK_EXPLOSION;
    hide ComponentShape, StructuredShape;
    hide Skips, VarIntBytes, TextBytes, SetBytes, Counted, Nbt.RootBytes, Nbt.RootFits;
    BurstSkips(v, d, p.burst);
  }

  lemma RocketPayload(v: Version, kind: int32, p: Payload, d: nat)
    requires d <= COMPONENT_DEPTH && PayloadOf(v.enc, kind, p)
    requires p.Rocket?
    ensures Skips(v, ComponentShape(v.enc, kind), d, PayloadBytes(v, kind, p))
  {
    assert ComponentShape(v.enc, kind) == FIREWORKS;
    hide ComponentShape, StructuredShape;
    LeafSkips(v, d);
    SeqSkips(v, d);
    hide Skips, VarIntBytes, TextBytes, SetBytes, Counted, Nbt.RootBytes, Nbt.RootFits;
    forall x | x in p.bursts
      ensures BurstBytes(x) != [] && Skips(v, FIREWORK_EXPLOSION, d, BurstBytes(x))
    {
      BurstSkips(v, d, x);
    }
    ListSkips(v, FIREWORK_EXPLOSION, d, p.bursts, BurstBytes);
  }

  lemma ModifiersPayload(v: Version, kind: int32, p: Payload, d: nat)
    requires d <= COMPONENT_DEPTH && PayloadOf(v.enc, kind, p)
    requires p.Modifiers?
    ensures Skips(v, ComponentShape(v.enc, kind), d, PayloadBytes(v, kind, p))
  {
    assert ComponentShape(v.enc, kind) == ListOf(ATTRIBUTE_MODIFIER);
    hide ComponentShape, StructuredShape;
    hide Skips, VarIntBytes, TextBytes, SetBytes, Counted, Nbt.RootBytes, Nbt.RootFits;
    forall x | x in p.modifiers
      ensures ModifierBytes(x) != [] && Skips(v, ATTRIBUTE_MODIFIER, d, ModifierBytes(x))
    {
      ModifierSkips(v, d, x);
    }
    ListSkips(v, ATTRIBUTE_MODIFIER, d, p.modifiers, ModifierBytes);
  }

  lemma LodestonePayload(v: Version, kind: int32, p: Payload, d: nat)
    requires d <= COMPONENT_DEPTH && PayloadOf(v.enc, kind, p)
    requires p.Lodestone?
    ensures Skips(v, ComponentShape(v.enc, kind), d, PayloadBytes(v, kind, p))
  {
    assert ComponentShape(v.enc, kind) == LODESTONE_TRACKER;
    hide ComponentShape, StructuredShape;
    LeafSkips(v, d);
    SeqSkips(v, d);
    OptionalSkips(v, d);
    hide Skips, VarIntBytes, TextBytes, SetBytes, Counted, Nbt.RootBytes, Nbt.RootFits;
  }

  lemma BookPayload(v: Version, kind: int32, p: Payload, d: nat)
    requires d <= COMPONENT_DEPTH && PayloadOf(v.enc, kind, p)
    requires p.Book?
    ensures Skips(v, ComponentShape(v.enc, kind), d, PayloadBytes(v, kind, p))
  {
    assert ComponentShape(v.enc, kind) == WRITTEN_BOOK;
    hide ComponentShape, StructuredShape;
    LeafSkips(v, d);
    FieldSkips(v, d);
    hide Skips, VarIntBytes, TextBytes, SetBytes, Counted, Nbt.RootBytes, Nbt.RootFits, OptText, Bool;
    forall x | x in p.pages
      ensures PageBytes(x) != [] && Skips(v, WRITTEN_PAGE, d, PageBytes(x))
    {
      PageSkips(v, d, x);
    }
    ListSkips(v, WRITTEN_PAGE, d, p.pages, PageBytes);
    var pages := Counted(p.pages, PageBytes);
    var end, tail := Seq(ListOf(WRITTEN_PAGE), FLAG), pages + Bool(p.resolved);
    SeqStep(v, d, ListOf(WRITTEN_PAGE), FLAG, pages, Bool(p.resolved));
    SeqStep(v, d, VarInt, end, VarIntBytes(p.generation), tail);
    SeqStep(v, d, Text, Seq(VarInt, end), TextBytes(p.author), VarIntBytes(p.generation) + tail);
    var end1, tail1 := Seq(Text, Seq(VarInt, end)), TextBytes(p.author) + (VarIntBytes(p.generation) + tail);
    SeqStep(v, d, Optional(Text), end1, OptText(p.filtered), tail1);
    SeqStep(v, d, Text, Seq(Optional(Text), end1), TextBytes(p.title), OptText(p.filtered) + tail1);
  }

  lemma DraftsPayload(v: Version, kind: int32, p: Payload, d: nat)
    requires d <= COMPONENT_DEPTH && PayloadOf(v.enc, kind, p)
    requires p.Drafts?
    ensures Skips(v, ComponentShape(v.enc, kind), d, PayloadBytes(v, kind, p))
  {
    assert ComponentShape(v.enc, kind) == WRITABLE_BOOK;
    hide ComponentShape, StructuredShape;
    hide Skips, VarIntBytes, TextBytes, SetBytes, Counted, Nbt.RootBytes, Nbt.RootFits;
    forall x | x in p.drafts
      ensures DraftBytes(x) != [] && Skips(v, Seq(Text, Optional(Text)), d, DraftBytes(x))
    {
      DraftSkips(v, d, x);
    }
    ListSkips(v, Seq(Text, Optional(Text)), d, p.drafts, DraftBytes);
  }

  lemma LorePayload(v: Version, kind: int32, p: Payload, d: nat)
    requires d <= COMPONENT_DEPTH && PayloadOf(v.enc, kind, p)
    requires p.Lore?
    ensures Skips(v, ComponentShape(v.enc, kind), d, PayloadBytes(v, kind, p))
  {
    assert ComponentShape(v.enc, kind) == ListOf(Tag);
    hide ComponentShape, StructuredShape;
    hide Skips, VarIntBytes, TextBytes, SetBytes, Counted, Nbt.RootBytes, Nbt.RootFits;
    forall x | x in p.lines ensures Nbt.RootBytes(x) != [] && Skips(v, Tag, d, Nbt.RootBytes(x)) { LineSkips(v, d, x); }
    ListSkips(v, Tag, d, p.lines, Nbt.RootBytes);
  }

  lemma NumbersPayload(v: Version, kind: int32, p: Payload, d: nat)
    requires d <= COMPONENT_DEPTH && PayloadOf(v.enc, kind, p)
    requires p.Numbers?
    ensures Skips(v, ComponentShape(v.enc, kind), d, PayloadBytes(v, kind, p))
  {
    assert ComponentShape(v.enc, kind) == ListOf(VarInt);
    hide ComponentShape, StructuredShape;
    hide Skips, VarIntBytes, TextBytes, SetBytes, Counted, Nbt.RootBytes, Nbt.RootFits;
    forall x | x in p.numbers
      ensures VarIntBytes(x) != [] && Skips(v, VarInt, d, VarIntBytes(x))
    {
      NumberSkips(v, d, x);
    }
    ListSkips(v, VarInt, d, p.numbers, VarIntBytes);
  }

  lemma EntriesPayload(v: Version, kind: int32, p: Payload, d: nat)
    requires d <= COMPONENT_DEPTH && PayloadOf(v.enc, kind, p)
    requires p.Entries?
    ensures Skips(v, ComponentShape(v.enc, kind), d, PayloadBytes(v, kind, p))
  {
    assert ComponentShape(v.enc, kind) == ListOf(Seq(Text, Text));
    hide ComponentShape, StructuredShape;
    hide Skips, VarIntBytes, TextBytes, SetBytes, Counted, Nbt.RootBytes, Nbt.RootFits;
    forall x | x in p.entries
      ensures EntryBytes(x) != [] && Skips(v, Seq(Text, Text), d, EntryBytes(x))
    {
      EntrySkips(v, d, x);
    }
    ListSkips(v, Seq(Text, Text), d, p.entries, EntryBytes);
  }

  lemma BannerPayload(v: Version, kind: int32, p: Payload, d: nat)
    requires d <= COMPONENT_DEPTH && PayloadOf(v.enc, kind, p)
    requires p.Banner?
    ensures Skips(v, ComponentShape(v.enc, kind), d, PayloadBytes(v, kind, p))
  {
    assert ComponentShape(v.enc, kind) == ListOf(Seq(HOLDER, VarInt));
    hide ComponentShape, StructuredShape;
    hide Skips, VarIntBytes, TextBytes, SetBytes, Counted, Nbt.RootBytes, Nbt.RootFits;
    forall x | x in p.layers
      ensures PairBytes(x) != [] && Skips(v, Seq(HOLDER, VarInt), d, PairBytes(x))
    {
      LayerSkips(v, d, x);
    }
    ListSkips(v, Seq(HOLDER, VarInt), d, p.layers, PairBytes);
  }

  lemma PairsPayload(v: Version, kind: int32, p: Payload, d: nat)
    requires d <= COMPONENT_DEPTH && PayloadOf(v.enc, kind, p)
    requires p.Pairs?
    ensures Skips(v, ComponentShape(v.enc, kind), d, PayloadBytes(v, kind, p))
  {
    assert ComponentShape(v.enc, kind) == ListOf(Seq(VarInt, VarInt));
    hide ComponentShape, StructuredShape;
    hide Skips, VarIntBytes, TextBytes, SetBytes, Counted, Nbt.RootBytes, Nbt.RootFits;
    forall x | x in p.pairs
      ensures PairBytes(x) != [] && Skips(v, Seq(VarInt, VarInt), d, PairBytes(x))
    {
      PairSkips(v, d, x);
    }
    ListSkips(v, Seq(VarInt, VarInt), d, p.pairs, PairBytes);
  }

  lemma TooltipPayload(v: Version, kind: int32, p: Payload, d: nat)
    requires d <= COMPONENT_DEPTH && PayloadOf(v.enc, kind, p)
    requires p.Tooltip?
    ensures Skips(v, ComponentShape(v.enc, kind), d, PayloadBytes(v, kind, p))
  {
    assert ComponentShape(v.enc, kind) == Seq(FLAG, ListOf(VarInt));
    hide ComponentShape, StructuredShape;
    LeafSkips(v, d);
    SeqSkips(v, d);
    hide Skips, VarIntBytes, TextBytes, SetBytes, Counted, Nbt.RootBytes, Nbt.RootFits;
    forall x | x in p.parts
      ensures VarIntBytes(x) != [] && Skips(v, VarInt, d, VarIntBytes(x))
    {
      NumberSkips(v, d, x);
    }
    ListSkips(v, VarInt, d, p.parts, VarIntBytes);
  }

  lemma ToolPayload(v: Version, kind: int32, p: Payload, d: nat)
    requires d <= COMPONENT_DEPTH && PayloadOf(v.enc, kind, p)
    requires p.Tool?
    ensures Skips(v, ComponentShape(v.enc, kind), d, PayloadBytes(v, kind, p))
  {
    assert ComponentShape(v.enc, kind) == TOOL;
    hide ComponentShape, StructuredShape;
    LeafSkips(v, d);
    SeqSkips(v, d);
    hide Skips, VarIntBytes, TextBytes, SetBytes, Counted, Nbt.RootBytes, Nbt.RootFits;
    forall x | x in p.rules ensures RuleBytes(x) != [] && Skips(v, TOOL_RULE, d, RuleBytes(x)) { RuleSkips(v, d, x); }
    ListSkips(v, TOOL_RULE, d, p.rules, RuleBytes);
  }

  lemma ModelPayload(v: Version, kind: int32, p: Payload, d: nat)
    requires d <= COMPONENT_DEPTH && PayloadOf(v.enc, kind, p)
    requires p.Model?
    ensures Skips(v, ComponentShape(v.enc, kind), d, PayloadBytes(v, kind, p))
  {
    assert ComponentShape(v.enc, kind) == CUSTOM_MODEL_DATA;
    hide ComponentShape, StructuredShape;
    hide Skips, VarIntBytes, TextBytes, SetBytes, Counted, Nbt.RootBytes, Nbt.RootFits, Bool;
    FoursSkip(v, d, p.floats);
    FoursSkip(v, d, p.colours);
    forall x | x in p.flags ensures Bool(x) != [] && Skips(v, FLAG, d, Bool(x)) { BoolSkips(v, d, x); }
    ListSkips(v, FLAG, d, p.flags, Bool);
    forall x | x in p.strings ensures TextBytes(x) != [] && Skips(v, Text, d, TextBytes(x)) { LabelSkips(v, d, x); }
    ListSkips(v, Text, d, p.strings, TextBytes);
    var colours, strings := Counted(p.colours, Raw), Counted(p.strings, TextBytes);
    SeqStep(v, d, ListOf(Text), ListOf(F32), strings, colours);
    SeqStep(v, d, ListOf(FLAG), Seq(ListOf(Text), ListOf(F32)), Counted(p.flags, Bool), strings + colours);
    SeqStep(v, d, ListOf(F32), Seq(ListOf(FLAG), Seq(ListOf(Text), ListOf(F32))), Counted(p.floats, Raw),
            Counted(p.flags, Bool) + (strings + colours));
  }

  lemma TestsPayload(v: Version, kind: int32, p: Payload, d: nat)
    requires d <= COMPONENT_DEPTH && PayloadOf(v.enc, kind, p)
    requires p.Tests?
    ensures Skips(v, ComponentShape(v.enc, kind), d, PayloadBytes(v, kind, p))
  {
    assert ComponentShape(v.enc, kind) == BlockPredicates(v.enc);
    hide ComponentShape, StructuredShape;
    LeafSkips(v, d);
    SeqSkips(v, d);
    hide Skips, VarIntBytes, TextBytes, SetBytes, Counted, Nbt.RootBytes, Nbt.RootFits;
    var e := BlockPredicate(v.enc);
    if v.enc.legacyBlockPredicates {
      forall x | x in p.tests ensures OldTestBytes(x) != [] && Skips(v, e, d, OldTestBytes(x)) { TestSkips(v, d, x); }
      ListSkips(v, e, d, p.tests, OldTestBytes);
    } else {
      forall x | x in p.tests ensures TestBytes(x) != [] && Skips(v, e, d, TestBytes(x)) { TestSkips(v, d, x); }
      ListSkips(v, e, d, p.tests, TestBytes);
      assert Counted(p.tests, TestBytes) + [] == Counted(p.tests, TestBytes);
      SeqStep(v, d, ListOf(e), Empty, Counted(p.tests, TestBytes), []);
    }
  }

  lemma PropertiesSkip(v: Version, d: nat, properties: seq<Property>)
    requires d <= COMPONENT_DEPTH && Fits31(|properties|) && forall p | p in properties :: PropertyOk(p)
    ensures Skips(v, ProfileProperties(false), d, Counted(properties, PropertyBytes))
    ensures Skips(v, ProfileProperties(true), d, Counted(properties, PropertyBytes) + ([0] + ([0] + ([0] + [0]))))
  {
    LeafSkips(v, d);
    OptionalSkips(v, d);
    hide Skips, Counted, PropertyBytes;
    var list := Counted(properties, PropertyBytes);
    forall x | x in properties ensures PropertyBytes(x) != [] && Skips(v, PROFILE_PROPERTY, d, PropertyBytes(x)) {
      PropertySkips(v, d, x);
    }
    ListSkips(v, PROFILE_PROPERTY, d, properties, PropertyBytes);
    assert list + [] == list;
    SeqStep(v, d, ListOf(PROFILE_PROPERTY), Empty, list, []);
    SeqStep(v, d, UNSEEN, UNSEEN, [0], [0]);
    SeqStep(v, d, UNSEEN, Seq(UNSEEN, UNSEEN), [0], [0] + [0]);
    SeqStep(v, d, UNSEEN, Seq(UNSEEN, Seq(UNSEEN, UNSEEN)), [0], [0] + ([0] + [0]));
    SeqStep(v, d, ListOf(PROFILE_PROPERTY), Seq(UNSEEN, Seq(UNSEEN, Seq(UNSEEN, UNSEEN))), list,
            [0] + ([0] + ([0] + [0])));
  }

  lemma HeadPayload(v: Version, kind: int32, p: Payload, d: nat)
    requires d <= COMPONENT_DEPTH && PayloadOf(v.enc, kind, p)
    requires p.Head?
    ensures Skips(v, ComponentShape(v.enc, kind), d, PayloadBytes(v, kind, p))
  {
    assert ComponentShape(v.enc, kind) == Profile(v.enc);
    hide ComponentShape, StructuredShape;
    LeafSkips(v, d);
    FieldSkips(v, d);
    hide Skips, VarIntBytes, TextBytes, SetBytes, Counted, Nbt.RootBytes, Nbt.RootFits;
    PropertiesSkip(v, d, p.properties);
    hide ProfileProperties, OptText, OptRaw;
    var rest := Counted(p.properties, PropertyBytes);
    var trailing := rest + ([0] + ([0] + ([0] + [0])));
    match p.person
    case Partial(name, uuid) =>
      SeqStep(v, d, Optional(Text), Optional(Fixed(16)), OptText(name), OptRaw(uuid));
      if v.enc.profileHasNoVariantTag {
        SeqStep(v, d, NAME_AND_UUID, ProfileProperties(false), OptText(name) + OptRaw(uuid), rest);
      } else {
        CaseStep(v, d, 0, NAME_AND_UUID, Seq(Fixed(16), Text), 0, OptText(name) + OptRaw(uuid));
        SeqStep(v, d, Case(0, NAME_AND_UUID, Seq(Fixed(16), Text)), ProfileProperties(true),
                VarIntBytes(0) + (OptText(name) + OptRaw(uuid)), trailing);
      }
    case Full(tag, whole, called) =>
      SeqStep(v, d, Fixed(16), Text, whole, TextBytes(called));
      CaseStep(v, d, 0, NAME_AND_UUID, Seq(Fixed(16), Text), tag, whole + TextBytes(called));
      SeqStep(v, d, Case(0, NAME_AND_UUID, Seq(Fixed(16), Text)), ProfileProperties(true),
              VarIntBytes(tag) + (whole + TextBytes(called)), trailing);
  }

  lemma BeeSkips(v: Version, d: nat, x: Bee)
    requires d <= COMPONENT_DEPTH && Nbt.RootFits(x.data)
    ensures BeeBytes(x) != [] && OldBeeBytes(x) != []
    ensures Skips(v, Shapes.Bee(v.enc), d, if v.enc.entityDataKeepsTypeInNbt then OldBeeBytes(x) else BeeBytes(x))
  {
    BytesThere();
    LeafSkips(v, d);
    SeqSkips(v, d);
    hide Skips, VarIntBytes, Nbt.RootBytes;
  }

  lemma HivesPayload(v: Version, kind: int32, p: Payload, d: nat)
    requires d <= COMPONENT_DEPTH && PayloadOf(v.enc, kind, p)
    requires p.Hives?
    ensures Skips(v, ComponentShape(v.enc, kind), d, PayloadBytes(v, kind, p))
  {
    assert ComponentShape(v.enc, kind) == ListOf(Shapes.Bee(v.enc));
    hide ComponentShape, StructuredShape;
    hide Skips, VarIntBytes, TextBytes, SetBytes, Counted, Nbt.RootBytes, Nbt.RootFits;
    var e := Shapes.Bee(v.enc);
    if v.enc.entityDataKeepsTypeInNbt {
      forall x | x in p.bees ensures OldBeeBytes(x) != [] && Skips(v, e, d, OldBeeBytes(x)) { BeeSkips(v, d, x); }
      ListSkips(v, e, d, p.bees, OldBeeBytes);
    } else {
      forall x | x in p.bees ensures BeeBytes(x) != [] && Skips(v, e, d, BeeBytes(x)) { BeeSkips(v, d, x); }
      ListSkips(v, e, d, p.bees, BeeBytes);
    }
  }

  /** Every payload of every component, in every version, is stepped over exactly. */
  lemma {:induction false} PayloadSkips(v: Version, kind: int32, p: Payload, d: nat)
    requires d <= COMPONENT_DEPTH && PayloadOk(v, kind, p, d)
    ensures Skips(v, ComponentShape(v.enc, kind), d, PayloadBytes(v, kind, p))
    decreases p, 1
  {
    hide Skips, PayloadBytes, PayloadOf, ComponentShape;
    match p
    case Nothing => LeafPayload(v, kind, p, d);
    case Number(_) => LeafPayload(v, kind, p, d);
    case Word(_) => LeafPayload(v, kind, p, d);
    case Toggle(_) => LeafPayload(v, kind, p, d);
    case Data(_) => TextPayload(v, kind, p, d);
    case Label(_) => TextPayload(v, kind, p, d);
    case Repairs(_) => TextPayload(v, kind, p, d);
    case Reach(_) => TextPayload(v, kind, p, d);
    case Sound(_) => SoundPayload(v, kind, p, d);
    case Protection => SoundPayload(v, kind, p, d);
    case Registry(_, _) => RegistryPayload(v, kind, p, d);
    case TagOnly(_) => TagPayload(v, kind, p, d);
    case Entity(_, _) => EntityPayload(v, kind, p, d);
    case Variant(_, _) => VariantPayload(v, kind, p, d);
    case Swing(_, _) => SwingPayload(v, kind, p, d);
    case Weapon(_, _) => SwingPayload(v, kind, p, d);
    case UseEffects(_, _, _) => EffectsPayload(v, kind, p, d);
    case Food(_, _, _) => EffectsPayload(v, kind, p, d);
    case Cooldown(_, _) => CooldownPayload(v, kind, p, d);
    case Consumed(_, _, _, _) => ConsumedPayload(v, kind, p, d);
    case Potion(_, _) => PotionPayload(v, kind, p, d);
    case Trimmed(_, _, _) => TrimPayload(v, kind, p, d);
    case Worn(_, _, _, _, _, _, _) => WornPayload(v, kind, p, d);
    case Guard(_, _, _, _, _, _, _, _) => GuardPayload(v, kind, p, d);
    case Piercing(_, _, _, _) => PiercingPayload(v, kind, p, d);
    case Kinetic(_, _, _, _, _, _, _, _, _) => KineticPayload(v, kind, p, d);
    case Exploding(_) => BurstPayload(v, kind, p, d);
    case Rocket(_, _) => RocketPayload(v, kind, p, d);
    case Modifiers(_) => ModifiersPayload(v, kind, p, d);
    case Lodestone(_, _) => LodestonePayload(v, kind, p, d);
    case Book(_, _, _, _, _, _) => BookPayload(v, kind, p, d);
    case Drafts(_) => DraftsPayload(v, kind, p, d);
    case Lore(_) => LorePayload(v, kind, p, d);
    case Numbers(_) => NumbersPayload(v, kind, p, d);
    case Entries(_) => EntriesPayload(v, kind, p, d);
    case Banner(_) => BannerPayload(v, kind, p, d);
    case Pairs(_) => PairsPayload(v, kind, p, d);
    case Tooltip(_, _) => TooltipPayload(v, kind, p, d);
    case Tool(_, _, _, _) => ToolPayload(v, kind, p, d);
    case Model(_, _, _, _) => ModelPayload(v, kind, p, d);
    case Tests(_, _) => TestsPayload(v, kind, p, d);
    case Head(_, _) => HeadPayload(v, kind, p, d);
    case Hives(_) => HivesPayload(v, kind, p, d);
    case Held(_) => HeldPayload(v, kind, p, d);
    case Bundle(_) => HeldPayload(v, kind, p, d);
    case Bays(_) => HeldPayload(v, kind, p, d);
  }

  lemma HeldShape(v: Version, kind: int32, p: Payload)
    requires PayloadOf(v.enc, kind, p)
    ensures p.Held? ==> ComponentShape(v.enc, kind) == Stack
    ensures p.Bundle? ==> ComponentShape(v.enc, kind) == ListOf(Stack) && Fits31(GearCount(p.gears))
    ensures p.Bays? ==> ComponentShape(v.enc, kind) == ContainerContents(v.enc) && Fits31(BayCount(p.bays))
  {
  }

  lemma {:induction false} HeldPayload(v: Version, kind: int32, p: Payload, d: nat)
    requires d <= COMPONENT_DEPTH && PayloadOk(v, kind, p, d) && (p.Held? || p.Bundle? || p.Bays?)
    ensures Skips(v, ComponentShape(v.enc, kind), d, PayloadBytes(v, kind, p))
    decreases p, 0
  {
    hide Run, RunMany, CountBytes, GearBytes, GearsBytes, BaysBytes, ListCount, AfterCount, ComponentShape, PayloadOf,
      Skips, GearOk, GearsOk, BaysOk;
    HeldShape(v, kind, p);
    match p
    case Held(gear) => GearSkips(v, gear, d);
    case Bundle(gears) =>
      forall rest: bytes
        ensures Run(v, ListOf(Stack), d, At(CountBytes(GearCount(gears)) + GearsBytes(v, gears) + rest)) == At(rest)
      {
        GearsSkip(v, gears, d, rest);
        CountedRun(v, Stack, d, GearCount(gears), GearsBytes(v, gears), rest);
      }
      SkipsAll(v, ListOf(Stack), d, CountBytes(GearCount(gears)) + GearsBytes(v, gears));
    case Bays(bays) =>
      var e := if v.enc.nestedStacksCountFirst then Slot else Optional(Stack);
      forall rest: bytes
        ensures Run(v, ListOf(e), d, At(CountBytes(BayCount(bays)) + BaysBytes(v, bays) + rest)) == At(rest)
      {
        BaysSkip(v, bays, d, rest);
        CountedRun(v, e, d, BayCount(bays), BaysBytes(v, bays), rest);
      }
      SkipsAll(v, ListOf(e), d, CountBytes(BayCount(bays)) + BaysBytes(v, bays));
  }

  lemma SkipsAll(v: Version, sh: Shape, d: nat, bs: bytes)
    requires d <= COMPONENT_DEPTH && forall rest: bytes {:trigger bs + rest} :: Run(v, sh, d, At(bs + rest)) == At(rest)
    ensures Skips(v, sh, d, bs)
  {
    hide Run;
  }

  lemma CountedRun(v: Version, e: Shape, d: nat, n: nat, bs: bytes, rest: bytes)
    requires d <= COMPONENT_DEPTH && Fits31(n) && n <= |bs| && RunMany(v, e, n, d, At(bs + rest)) == At(rest)
    ensures Run(v, ListOf(e), d, At(CountBytes(n) + bs + rest)) == At(rest)
  {
    hide ListCount, AfterCount, CountBytes, RunMany;
    assert CountBytes(n) + bs + rest == CountBytes(n) + (bs + rest);
    CountAt(n, bs + rest);
  }

  /** An item inside an item: what leads, the counts, the parts one level down. */
  lemma {:induction false} GearSkips(v: Version, g: Gear, d: nat)
    requires d <= COMPONENT_DEPTH && GearOk(v, g, d)
    ensures Skips(v, Stack, d, GearBytes(v, g)) && GearBytes(v, g) != []
    decreases g
  {
    hide VarIntBytes, CountBytes, GearTail, AfterVarInts, RunComponents, ListCount, AfterCount, Stream.VarInt,
      Stream.AfterVarInt, PartsOk;
    var a := if v.enc.nestedStacksCountFirst then g.count else g.id;
    var b := if v.enc.nestedStacksCountFirst then g.id else g.count;
    BytesThere();
    forall rest: bytes ensures Run(v, Stack, d, At(GearBytes(v, g) + rest)) == At(rest) {
      assert GearBytes(v, g) + rest == VarIntBytes(a) + (VarIntBytes(b) + (GearTail(v, g) + rest));
      VarIntAt(a, VarIntBytes(b) + (GearTail(v, g) + rest));
      VarIntAt(b, GearTail(v, g) + rest);
      TailSkips(v, g, d + 1, rest);
    }
  }

  lemma {:induction false} TailSkips(v: Version, g: Gear, d: nat, rest: bytes)
    requires d <= COMPONENT_DEPTH + 1 && Fits31(PartCount(g.parts)) && Fits31(|g.removed|) && PartsOk(v, g.parts, d)
    ensures var s := At(GearTail(v, g) + rest);
            && ListCount(s) == PartCount(g.parts) && ListCount(AfterCount(s)) == |g.removed|
            && AfterCount(AfterCount(s)) == At(PartsBytes(v, g.parts) + (VarIntsBytes(g.removed) + rest))
            && AfterVarInts(RunComponents(v, ListCount(s), d, AfterCount(AfterCount(s))), |g.removed|) == At(rest)
    decreases g, 0
  {
    hide CountBytes, ListCount, AfterCount, RunComponents, PartsBytes, PartsOk, AfterVarInts;
    var ids := VarIntsBytes(g.removed) + rest;
    var parts := PartsBytes(v, g.parts) + ids;
    var removed := CountBytes(|g.removed|) + parts;
    assert GearTail(v, g) + rest == CountBytes(PartCount(g.parts)) + removed;
    PartsThere(v, g.parts);
    VarIntsSkipped(g.removed, rest);
    CountAt(PartCount(g.parts), removed);
    CountAt(|g.removed|, parts);
    PartsSkip(v, g.parts, d, ids);
  }

  lemma {:induction false} PartsThere(v: Version, ps: Parts)
    ensures |PartsBytes(v, ps)| >= PartCount(ps)
    decreases ps
  {
    hide VarIntBytes, PartBytes;
    BytesThere();
    if ps.Part? { PartsThere(v, ps.rest); }
  }

  /** The parts of an item, each behind its wire id. */
  lemma {:induction false} PartsSkip(v: Version, ps: Parts, d: nat, rest: bytes)
    requires d <= COMPONENT_DEPTH + 1 && PartsOk(v, ps, d)
    ensures RunComponents(v, PartCount(ps), d, At(PartsBytes(v, ps) + rest)) == At(rest)
    decreases ps
  {
    hide VarIntBytes, Run, PayloadOk, PayloadBytes, ComponentShape, CanonicalComponent, Stream.VarInt,
      Stream.AfterVarInt;
    match ps
    case NoPart => assert PartsBytes(v, ps) + rest == rest;
    case Part(wire, payload, more) =>
      var kind := CanonicalComponent(v, wire).value;
      var tail := PartsBytes(v, more) + rest;
      assert PartsBytes(v, ps) + rest == VarIntBytes(wire) + (PayloadBytes(v, kind, payload) + tail);
      VarIntAt(wire, PayloadBytes(v, kind, payload) + tail);
      PayloadSkips(v, kind, payload, d);
      SkipsIs(v, ComponentShape(v.enc, kind), d, PayloadBytes(v, kind, payload), tail);
      PartsSkip(v, more, d, rest);
  }

  lemma {:induction false} GearsSkip(v: Version, gs: Gears, d: nat, rest: bytes)
    requires d <= COMPONENT_DEPTH && GearsOk(v, gs, d)
    ensures RunMany(v, Stack, GearCount(gs), d, At(GearsBytes(v, gs) + rest)) == At(rest)
    ensures |GearsBytes(v, gs)| >= GearCount(gs)
    decreases gs
  {
    hide Run, GearBytes, GearOk;
    match gs
    case NoGear => assert GearsBytes(v, gs) + rest == rest;
    case MoreGear(head, tail) =>
      GearSkips(v, head, d);
      assert GearsBytes(v, gs) + rest == GearBytes(v, head) + (GearsBytes(v, tail) + rest);
      SkipsIs(v, Stack, d, GearBytes(v, head), GearsBytes(v, tail) + rest);
      GearsSkip(v, tail, d, rest);
  }

  lemma {:induction false} BaysSkip(v: Version, bs: Bays, d: nat, rest: bytes)
    requires d <= COMPONENT_DEPTH && BaysOk(v, bs, d)
    ensures RunMany(v, if v.enc.nestedStacksCountFirst then Slot else Optional(Stack), BayCount(bs), d,
            At(BaysBytes(v, bs) + rest))
         == At(rest)
    ensures |BaysBytes(v, bs)| >= BayCount(bs)
    decreases bs
  {
    hide Run, GearBytes, GearOk;
    var e := if v.enc.nestedStacksCountFirst then Slot else Optional(Stack);
    match bs
    case NoBay => assert BaysBytes(v, bs) + rest == rest;
    case EmptyBay(more) =>
      var tail := BaysBytes(v, more) + rest;
      assert BaysBytes(v, bs) + rest == [0] + tail;
      EmptyBayAt(v, d, tail);
      BaysSkip(v, more, d, rest);
    case FullBay(gear, more) =>
      var tail := BaysBytes(v, more) + rest;
      GearSkips(v, gear, d);
      FullBayAt(v, gear, d, tail);
      assert BaysBytes(v, bs) + rest
          == (if v.enc.nestedStacksCountFirst then GearBytes(v, gear) else [1] + GearBytes(v, gear)) + tail;
      BaysSkip(v, more, d, rest);
  }

  lemma EmptyBayAt(v: Version, d: nat, tail: bytes)
    requires d <= COMPONENT_DEPTH
    ensures Run(v, Slot, d, At([0] + tail)) == At(tail) && Run(v, Optional(Stack), d, At([0] + tail)) == At(tail)
  {
    hide RunStack;
    FlagAt(0, tail);
  }

  lemma FullBayAt(v: Version, g: Gear, d: nat, tail: bytes)
    requires d <= COMPONENT_DEPTH && Skips(v, Stack, d, GearBytes(v, g))
    requires (v.enc.nestedStacksCountFirst ==> g.count != 0)
    ensures v.enc.nestedStacksCountFirst ==> Run(v, Slot, d, At(GearBytes(v, g) + tail)) == At(tail)
    ensures Run(v, Optional(Stack), d, At([1] + GearBytes(v, g) + tail)) == At(tail)
  {
    hide RunStack, GearTail;
    SkipsIs(v, Stack, d, GearBytes(v, g), tail);
    VarIntAt(g.count, []);
    assert [1] + GearBytes(v, g) + tail == [1] + (GearBytes(v, g) + tail);
    FlagAt(1, GearBytes(v, g) + tail);
  }
}
