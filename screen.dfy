/** The dashboard screen of ui.py: the twelve text labels the main loop writes, their
    placeholder texts, and the setters that overwrite them.  Layout (fonts, colours,
    positions, shapes, the display group) and the display bring-up are not modelled. */
module Screen {
  import opened Wrappers
  import opened Format

  /** The text of every label the main loop writes, at one moment. */
  datatype Labels = Labels(
    speed: string, temp: string, humi: string, press: string, alt: string,
    lat: string, lon: string, sat: string, fixQuality: string, time: string,
    counter: string, sysStat: string)

  /** A render frame: per label, the text one pass writes into it, or None when the pass
      leaves that label alone. */
  datatype Frame = Frame(
    speed: Option<string>, temp: Option<string>, humi: Option<string>, press: Option<string>,
    alt: Option<string>, lat: Option<string>, lon: Option<string>, sat: Option<string>,
    fixQuality: Option<string>, time: Option<string>, counter: Option<string>,
    sysStat: Option<string>)

  /** The frame that writes nothing. */
  const NoWrites := Frame(None, None, None, None, None, None, None, None, None, None, None, None)

  /** Writes every label the frame has a text for and leaves the others as they are. */
  function Apply(l: Labels, f: Frame): (r: Labels)
  {
    Labels(
      speed := f.speed.GetOr(l.speed),
      temp := f.temp.GetOr(l.temp),
      humi := f.humi.GetOr(l.humi),
      press := f.press.GetOr(l.press),
      alt := f.alt.GetOr(l.alt),
      lat := f.lat.GetOr(l.lat),
      lon := f.lon.GetOr(l.lon),
      sat := f.sat.GetOr(l.sat),
      fixQuality := f.fixQuality.GetOr(l.fixQuality),
      time := f.time.GetOr(l.time),
      counter := f.counter.GetOr(l.counter),
      sysStat := f.sysStat.GetOr(l.sysStat))
  }

  /** Frame `a` followed by frame `b`: a label gets `b`'s text if `b` writes it, else `a`'s. */
  function Then(a: Frame, b: Frame): Frame
  {
    Frame(
      speed := if b.speed.Some? then b.speed else a.speed,
      temp := if b.temp.Some? then b.temp else a.temp,
      humi := if b.humi.Some? then b.humi else a.humi,
      press := if b.press.Some? then b.press else a.press,
      alt := if b.alt.Some? then b.alt else a.alt,
      lat := if b.lat.Some? then b.lat else a.lat,
      lon := if b.lon.Some? then b.lon else a.lon,
      sat := if b.sat.Some? then b.sat else a.sat,
      fixQuality := if b.fixQuality.Some? then b.fixQuality else a.fixQuality,
      time := if b.time.Some? then b.time else a.time,
      counter := if b.counter.Some? then b.counter else a.counter,
      sysStat := if b.sysStat.Some? then b.sysStat else a.sysStat)
  }

  /** Applying two frames one after the other is applying the combined frame. */
  lemma ApplyThen(l: Labels, a: Frame, b: Frame)
    ensures Apply(Apply(l, a), b) == Apply(l, Then(a, b))
    ensures Then(a, NoWrites) == a
  {
  }

  /** The placeholder texts main_screen gives the labels. */
  const InitialLabels := Labels(
    speed := "00",
    temp := "00" + [Degree],
    humi := "00%",
    press := "00%",
    alt := "ALT:0      ",
    lat := "LAT: wait            ",
    lon := "LON: wait            ",
    sat := "SAT:0",
    fixQuality := "FQU:0",
    time := "00:00",
    counter := "000000  ",
    sysStat := "Wait for status ...")

  /** The UI object: one field per written label. */
  class Ui {
    var speedValue: string
    var tempValue: string
    var humiValue: string
    var pressValue: string
    var altLabel: string
    var latLabel: string
    var lonLabel: string
    var satLabel: string
    var fqLabel: string
    var timeLabel: string
    var counter: string
    var sysStatLabel: string

    function Texts(): Labels
      reads this
    {
      Labels(speedValue, tempValue, humiValue, pressValue, altLabel, latLabel, lonLabel,
             satLabel, fqLabel, timeLabel, counter, sysStatLabel)
    }

    /** `UI()` followed by `main_screen(...)`: every label holds its placeholder. */
    constructor MainScreen()
      ensures Texts() == InitialLabels
    {
      speedValue := InitialLabels.speed;
      tempValue := InitialLabels.temp;
      humiValue := InitialLabels.humi;
      pressValue := InitialLabels.press;
      counter := InitialLabels.counter;
      timeLabel := InitialLabels.time;
      sysStatLabel := InitialLabels.sysStat;
      latLabel := InitialLabels.lat;
      lonLabel := InitialLabels.lon;
      satLabel := InitialLabels.sat;
      fqLabel := InitialLabels.fixQuality;
      altLabel := InitialLabels.alt;
    }

    method SetCounter(countValue: int)
      modifies this
      ensures Texts() == old(Texts()).(counter := CounterText(countValue))
    {
      counter := CounterText(countValue);
    }

    method SetTime(hours: int, minutes: int)
      modifies this
      ensures Texts() == old(Texts()).(time := TimeText(hours, minutes))
    {
      timeLabel := TimeText(hours, minutes);
    }

    /** The arguments are `round(temp)`, `round(humi)` and `round(press * 0.75)`. */
    method SetBmeValues(temp: int, humi: int, pressMmHg: int)
      modifies this
      ensures Texts() == old(Texts()).(temp := TempText(temp), humi := HumiText(humi),
                                       press := PressText(pressMmHg))
    {
      tempValue := TempText(temp);
      humiValue := HumiText(humi);
      pressValue := PressText(pressMmHg);
    }

    /** The argument is `round(speed * 1.852)`. */
    method SetSpeedValue(kmh: int)
      modifies this
      ensures Texts() == old(Texts()).(speed := SpeedText(kmh))
    {
      speedValue := SpeedText(kmh);
    }

    /** Stores its argument verbatim. */
    method SetSysStat(sysStat: string)
      modifies this
      ensures Texts() == old(Texts()).(sysStat := sysStat)
    {
      sysStatLabel := sysStat;
    }

    /** The arguments are the `.6f` renderings.  A longitude of `None` makes the second
        format raise after the latitude label has been written: `raised` reports it and
        the longitude label keeps its text. */
    method SetCoordStat(latitude: string, longitude: Option<string>) returns (raised: bool)
      modifies this
      ensures raised <==> longitude.None?
      ensures Texts() == if raised then old(Texts()).(lat := LatText(latitude))
                         else old(Texts()).(lat := LatText(latitude), lon := LonText(longitude.value))
    {
      latLabel := LatText(latitude);
      match longitude
      case None =>
        raised := true;
      case Some(lon) =>
        lonLabel := LonText(lon);
        raised := false;
    }

    method SetSatNum(satellites: int)
      modifies this
      ensures Texts() == old(Texts()).(sat := SatText(satellites))
    {
      satLabel := SatText(satellites);
    }

    method SetFixQuality(fixQuality: int)
      modifies this
      ensures Texts() == old(Texts()).(fixQuality := FixQualityText(fixQuality))
    {
      fqLabel := FixQualityText(fixQuality);
    }

    /** The argument is the `.1f` rendering of the altitude. */
    method SetAltitude(altitude: string)
      modifies this
      ensures Texts() == old(Texts()).(alt := AltText(altitude))
    {
      altLabel := AltText(altitude);
    }
  }
}
