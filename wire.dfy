/**
 * The shapes that travel between the Flask backend (backend/app.py) and the
 * React client (frontend/src/App.js): the JSON record of one batted ball, the
 * summary object, an HTTP response, and ordered string pairs (a query string,
 * a plain JavaScript object's entries).
 */
module Wire {

  datatype Option<T> = None | Some(value: T)

  /** A JSON scalar in a record sent by `/api/data`: a string or a number. */
  datatype Value = Text(s: string) | Number(n: real)

  /** One JSON record of `/api/data`, one field per column the backend selects. */
  datatype Record = Record(
    batter: Value,
    pitcher: Value,
    gameDate: Value,
    launchAngle: Value,
    exitSpeed: Value,
    exitDirection: Value,
    hitDistance: Value,
    hangTime: Value,
    hitSpinRate: Value,
    playOutcome: Value,
    videoLink: Value)

  /** The columns the backend selects, named by their JSON keys in `Key()`. */
  datatype Col =
    | Batter | Pitcher | GameDate | LaunchAngle | ExitSpeed | ExitDirection
    | HitDistance | HangTime | HitSpinRate | PlayOutcome | VideoLink
  {
    function Key(): string {
      match this
      case Batter => "BATTER"
      case Pitcher => "PITCHER"
      case GameDate => "GAME_DATE"
      case LaunchAngle => "LAUNCH_ANGLE"
      case ExitSpeed => "EXIT_SPEED"
      case ExitDirection => "EXIT_DIRECTION"
      case HitDistance => "HIT_DISTANCE"
      case HangTime => "HANG_TIME"
      case HitSpinRate => "HIT_SPIN_RATE"
      case PlayOutcome => "PLAY_OUTCOME"
      case VideoLink => "VIDEO_LINK"
    }
  }

  /** The column list of `get_data`, in its order. */
  const Columns: seq<Col> :=
    [Batter, Pitcher, GameDate, LaunchAngle, ExitSpeed, ExitDirection,
     HitDistance, HangTime, HitSpinRate, PlayOutcome, VideoLink]

  /**
   * The selection lists every column of a record exactly once, under the
   * JSON key names of the handler's column list, in that order.
   */
  lemma ColumnsCoverTheRecord()
    ensures forall c: Col :: c in Columns
    ensures forall i, j :: 0 <= i < j < |Columns| ==> Columns[i] != Columns[j]
    ensures seq(|Columns|, i requires 0 <= i < |Columns| => Columns[i].Key())
            == ["BATTER", "PITCHER", "GAME_DATE", "LAUNCH_ANGLE", "EXIT_SPEED", "EXIT_DIRECTION",
                "HIT_DISTANCE", "HANG_TIME", "HIT_SPIN_RATE", "PLAY_OUTCOME", "VIDEO_LINK"]
  {
    forall c: Col ensures c in Columns {
      match c
      case Batter => assert Columns[0] == c;
      case Pitcher => assert Columns[1] == c;
      case GameDate => assert Columns[2] == c;
      case LaunchAngle => assert Columns[3] == c;
      case ExitSpeed => assert Columns[4] == c;
      case ExitDirection => assert Columns[5] == c;
      case HitDistance => assert Columns[6] == c;
      case HangTime => assert Columns[7] == c;
      case HitSpinRate => assert Columns[8] == c;
      case PlayOutcome => assert Columns[9] == c;
      case VideoLink => assert Columns[10] == c;
    }
  }

  /** Property access `record[c.Key()]`. */
  function Column(r: Record, c: Col): Value {
    match c
    case Batter => r.batter
    case Pitcher => r.pitcher
    case GameDate => r.gameDate
    case LaunchAngle => r.launchAngle
    case ExitSpeed => r.exitSpeed
    case ExitDirection => r.exitDirection
    case HitDistance => r.hitDistance
    case HangTime => r.hangTime
    case HitSpinRate => r.hitSpinRate
    case PlayOutcome => r.playOutcome
    case VideoLink => r.videoLink
  }

  /**
   * The JSON object of `/api/summary`. An average is `None` when the column
   * holds no number at all (pandas then yields NaN).
   */
  datatype Summary = Summary(
    avgExitSpeed: Option<real>,
    avgLaunchAngle: Option<real>,
    totalBattedBalls: int,
    uniqueBatters: int,
    uniquePitchers: int)

  /** An HTTP response: a JSON body with status 200, or an error object with its status. */
  datatype Response<T> = Ok(body: T) | Error(status: int, message: string)
  {
    function Status(): int {
      if Ok? then 200 else status
    }
  }

  /**
   * Ordered string pairs: the entries of a plain JavaScript object in insertion
   * order, the pairs appended to a `URLSearchParams`, and the arguments Flask
   * parses back from the query string.
   */
  type Entries = seq<(string, string)>

  function Keys(e: Entries): seq<string> {
    seq(|e|, i requires 0 <= i < |e| => e[i].0)
  }

  predicate DistinctKeys(e: Entries) {
    forall i, j :: 0 <= i < j < |e| ==> e[i].0 != e[j].0
  }

  /**
   * The first value stored under `k`: a property read on a JavaScript object
   * (whose keys are distinct) and Werkzeug's `MultiDict.get`.
   */
  function Lookup(e: Entries, k: string): (r: Option<string>)
    ensures r.Some? <==> k in Keys(e)
    ensures r.Some? ==> (k, r.value) in e
  {
    if e == [] then None
    else
      assert Keys(e) == [e[0].0] + Keys(e[1..]);
      if e[0].0 == k then Some(e[0].1) else Lookup(e[1..], k)
  }

  /** The value found is the one stored with the first occurrence of the key. */
  lemma {:induction false} LookupFindsFirst(e: Entries, k: string, i: int)
    requires 0 <= i < |e| && e[i].0 == k && k !in Keys(e[..i])
    ensures Lookup(e, k) == Some(e[i].1)
  {
    if i > 0 {
      assert Keys(e[..i])[0] == e[0].0;
      assert Keys(e[1..][..i - 1]) == Keys(e[..i])[1..];
      LookupFindsFirst(e[1..], k, i - 1);
    }
  }
}
