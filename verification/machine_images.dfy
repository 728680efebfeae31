/** Machine images of a worker: the precedence by which an AMI is looked up
    (cloud profile first, then the worker's recorded provider status) and the
    append-if-absent update of the image list. The cloud-profile lookup, the
    status decoder and the list lookup are supplied by the caller. */
module MachineImages {
  import opened Base

  datatype MachineImage = MachineImage(name: string, version: string, ami: string, architecture: Option<string>)

  datatype WorkerStatus = WorkerStatus(machineImages: seq<MachineImage>)

  /** The cloud-profile lookup by name, version, region and architecture. */
  type ProfileLookup = (string, string, string, Option<string>) -> Option<string>

  /** Decodes the raw provider status; `None` is a decode error. */
  type StatusDecoder = seq<bv8> -> Option<WorkerStatus>

  /** Looks an image up in a list by name, version and architecture. */
  type ImageFinder = (seq<MachineImage>, string, string, Option<string>) -> Option<MachineImage>

  datatype ImageError =
    | DecodeWorkerStatusFailed
    | MachineImageNotFound(name: string, version: string, arch: string, region: string)
      // the not-found error reads the architecture through its pointer
    | NilArchitectureDereference

  /** The not-found error, which needs a present architecture to be built. */
  function NotFound(name: string, version: string, arch: Option<string>, region: string): (r: Result<string, ImageError>)
    ensures r.Failure?
    ensures arch.None? <==> r.error == NilArchitectureDereference
    ensures arch.Some? ==> r.error == MachineImageNotFound(name, version, arch.value, region)
  {
    match arch
    case None => Failure(NilArchitectureDereference)
    case Some(a) => Failure(MachineImageNotFound(name, version, a, region))
  }

  /** The AMI for an image: the cloud profile when it knows the image,
      otherwise the image recorded in the decoded provider status. */
  function FindMachineImage(profile: ProfileLookup, decode: StatusDecoder, find: ImageFinder,
                            providerStatus: Option<seq<bv8>>,
                            name: string, version: string, region: string, arch: Option<string>)
    : (r: Result<string, ImageError>)
    // found exactly when the profile or the recorded status has the image
    ensures r.Success? <==>
              || profile(name, version, region, arch).Some?
              || (&& providerStatus.Some?
                  && decode(providerStatus.value).Some?
                  && find(decode(providerStatus.value).value.machineImages, name, version, arch).Some?)
    // the profile takes precedence over the status
    ensures profile(name, version, region, arch).Some? ==> r == Success(profile(name, version, region, arch).value)
    ensures r.Success? && profile(name, version, region, arch).None? ==>
              r.value == find(decode(providerStatus.value).value.machineImages, name, version, arch).value.ami
    // a status that cannot be decoded is reported as such, any other miss as not found
    ensures r.Failure? ==>
              if providerStatus.Some? && decode(providerStatus.value).None? then r.error == DecodeWorkerStatusFailed
              else r == NotFound(name, version, arch, region)
  {
    match profile(name, version, region, arch)
    case Some(ami) => Success(ami)
    case None =>
      match providerStatus
      case None => NotFound(name, version, arch, region)
      case Some(raw) =>
        match decode(raw)
        case None => Failure(DecodeWorkerStatusFailed)
        case Some(status) =>
          match find(status.machineImages, name, version, arch)
          case None => NotFound(name, version, arch, region)
          case Some(image) => Success(image.ami)
  }

  /** The finder only reports images of the list with the asked name and
      version. */
  ghost predicate FindsOnlyListed(find: ImageFinder)
  {
    forall images, name, version, arch :: find(images, name, version, arch).Some? ==>
      var m := find(images, name, version, arch).value;
      m in images && m.name == name && m.version == version
  }

  /** The finder locates every listed image with an architecture by that
      image's own name, version and architecture. */
  ghost predicate FindsListed(find: ImageFinder)
  {
    forall images: seq<MachineImage>, x: MachineImage :: x in images && x.architecture.Some? ==>
      find(images, x.name, x.version, x.architecture).Some?
  }

  /** When the profile misses, an AMI that is found belongs to an image
      recorded in the status under the asked name and version. */
  lemma StatusAmiIsRecorded(profile: ProfileLookup, decode: StatusDecoder, find: ImageFinder,
                            providerStatus: Option<seq<bv8>>,
                            name: string, version: string, region: string, arch: Option<string>)
    requires FindsOnlyListed(find)
    ensures var r := FindMachineImage(profile, decode, find, providerStatus, name, version, region, arch);
            r.Success? && profile(name, version, region, arch).None? ==>
              exists m :: m in decode(providerStatus.value).value.machineImages
                             && m.name == name && m.version == version && m.ami == r.value
  {
    var r := FindMachineImage(profile, decode, find, providerStatus, name, version, region, arch);
    if r.Success? && profile(name, version, region, arch).None? {
      var m := find(decode(providerStatus.value).value.machineImages, name, version, arch).value;
      assert m in decode(providerStatus.value).value.machineImages && m.name == name && m.version == version;
    }
  }

  /** Whenever the profile knows the image, the provider status, the decoder
      and the finder make no difference. */
  lemma ProfileIgnoresStatus(profile: ProfileLookup, decode: StatusDecoder, decode': StatusDecoder,
                             find: ImageFinder, find': ImageFinder,
                             providerStatus: Option<seq<bv8>>, providerStatus': Option<seq<bv8>>,
                             name: string, version: string, region: string, arch: Option<string>)
    requires profile(name, version, region, arch).Some?
    ensures FindMachineImage(profile, decode, find, providerStatus, name, version, region, arch)
            == FindMachineImage(profile, decode', find', providerStatus', name, version, region, arch)
  {
  }

  /** Appends the image unless the list already has one found by its name,
      version and architecture. */
  function AppendMachineImage(find: ImageFinder, images: seq<MachineImage>, image: MachineImage): (r: seq<MachineImage>)
    ensures find(images, image.name, image.version, image.architecture).Some? ==> r == images
    ensures find(images, image.name, image.version, image.architecture).None? ==>
              |r| == |images| + 1 && r[..|images|] == images && r[|images|] == image
  {
    if find(images, image.name, image.version, image.architecture).None? then images + [image]
    else images
  }

  /** Images are identified by name, version and architecture. */
  predicate SameKey(a: MachineImage, b: MachineImage)
  {
    a.name == b.name && a.version == b.version && a.architecture == b.architecture
  }

  /** No two images of the list share name, version and architecture. */
  predicate DistinctKeys(images: seq<MachineImage>)
  {
    forall i, j :: 0 <= i < j < |images| ==> !SameKey(images[i], images[j])
  }

  /** With a finder that locates listed images, appending an image with an
      architecture a second time changes nothing. */
  lemma AppendIdempotent(find: ImageFinder, images: seq<MachineImage>, image: MachineImage)
    requires FindsListed(find)
    requires image.architecture.Some?
    ensures var once := AppendMachineImage(find, images, image);
            AppendMachineImage(find, once, image) == once
  {
    var once := AppendMachineImage(find, images, image);
    if find(images, image.name, image.version, image.architecture).None? {
      assert once[|images|] == image;
      assert image in once;
    }
  }

  /** Appending keeps the keys of a list distinct, for images with an
      architecture and a finder that locates listed images. */
  lemma AppendKeepsKeysDistinct(find: ImageFinder, images: seq<MachineImage>, image: MachineImage)
    requires FindsListed(find)
    requires image.architecture.Some?
    requires DistinctKeys(images)
    ensures DistinctKeys(AppendMachineImage(find, images, image))
  {
    var r := AppendMachineImage(find, images, image);
    if find(images, image.name, image.version, image.architecture).None? {
      forall i, j | 0 <= i < j < |r|
        ensures !SameKey(r[i], r[j])
      {
        if j == |images| {
          assert r[i] == images[i] && r[j] == image;
          if images[i].architecture.Some? {
            assert images[i] in images;
          }
        } else {
          assert r[i] == images[i] && r[j] == images[j];
        }
      }
    }
  }
}
