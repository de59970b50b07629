/**
  Shared vocabulary of the touch-sampling job: the error taxonomy, the values
  stored in files (touch-query batches, meshes, atlases) and the geometry
  engine, which is an opaque collaborator passed around as a record of
  functions.
 */
module Types {

  datatype Option<T> = None | Some(value: T)

  datatype Result<T> = Ok(value: T) | Err(error: Error)

  function Min(a: int, b: int): int
  {
    if a < b then a else b
  }

  /** The ways a command of the job can fail. */
  datatype Error =
    | ZeroDivision            // divmod or % by zero (Python ZeroDivisionError)
    | NotDivisible(tqBatch: nat, gpBatch: nat)  // the configuration assert of the partitioner
    | NoGpBatch               // the partitioner was built without a geometry batch size
    | MissingFile(name: string)  // a file that must exist does not
    | IndexOutOfRange         // an array read past its end (Python IndexError)
    | UnknownGeoType(given: string)
    | UnknownCommand(given: string)
    | NothingAccumulated      // no sample contributed to an atlas

  /** A configuration of the robot: a vector of coordinates. */
  type Config = seq<real>

  /** A surface mesh: vertex rows and face rows. */
  datatype Mesh = Mesh(verts: seq<seq<real>>, faces: seq<seq<int>>)

  /** Contents of one touch-query batch file (the six named arrays). */
  datatype BatchFile = BatchFile(
    fromV: seq<Config>,
    freeV: seq<Config>,
    touchV: seq<Config>,
    isInf: seq<bool>,
    freeTau: seq<real>,
    touchTau: seq<real>)

  /** A batch file as the `run` command writes it: every array holds `size` rows. */
  predicate WellFormed(d: BatchFile, size: nat)
  {
    |d.fromV| == size && |d.freeV| == size && |d.touchV| == size
    && |d.isInf| == size && |d.freeTau| == size && |d.touchTau| == size
  }

  /** The two surfaces UV geometry can be projected onto. */
  datatype GeoType = Rob | Env

  /** Side length of an atlas image. */
  const ATLAS_RES: nat := 2048

  /** Number of pixels of an atlas image, stored row-major. */
  const PIXELS: nat := ATLAS_RES * ATLAS_RES

  /** A single-channel atlas-sized image of real intensities. */
  type Image = s: seq<real> | |s| == PIXELS witness seq(PIXELS, _ => 0.0)

  /** One probe result of the engine's contact search. */
  datatype Contact = Contact(free: Config, touch: Config, isInf: bool, freeTau: real, touchTau: real)

  /**
    The geometry engine, reduced to the operations the job calls on it.
    Each field is a pure function of its arguments.
   */
  datatype Engine = Engine(
    toUnitState: Config -> Config,
    apply: (Config, Config, Config) -> Config,
    transitWithContact: (Config, Config, real) -> Contact,
    renderBarycentric: (GeoType, Mesh) -> Image,
    distance: (Config, Config) -> real)
}
