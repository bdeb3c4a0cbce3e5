/** The server record the backend lists and the front end displays, as it travels in JSON. */
module Wire {
  import Text

  /** A server id: a number for the simulated servers, the string `"local-pc"` for the real machine. */
  datatype Id = Num(n: int) | Key(s: string)

  /** `String(id)`, how the front end compares ids and keys its per-button loading flags. */
  function IdString(id: Id): string {
    match id
    case Num(n) => Text.IntString(n)
    case Key(s) => s
  }

  const LocalPc: Id := Key("local-pc")

  const Online := "online"
  const Offline := "offline"

  /** One entry of `GET /api/servidores`. */
  datatype ServerView = ServerView(
    id: Id,
    nombre: string,
    ip: string,
    estado: string,
    servicios: seq<string>,
    cpu: string,
    ram: string)

  /** No numeric id prints as the real machine's id, so `String(id) === "local-pc"`
      singles out the real machine. */
  lemma NumIsNotLocalPc(n: int)
    ensures IdString(Num(n)) != IdString(LocalPc)
  {
    var s := IdString(Num(n));
    if n < 0 {
      assert s[0] == '-';
    } else {
      assert '0' <= s[0] <= '9';
    }
  }
}
