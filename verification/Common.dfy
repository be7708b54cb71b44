/** Option and the machine-integer bounds the sources rely on. */
module Common {

  datatype Option<+T> = None | Some(value: T) {
    function Or(default: T): (r: T) {
      if Some? then value else default
    }
  }

  const U16_MAX: nat := 0xFFFF
  const U32_MAX: nat := 0xFFFF_FFFF
  const I64_MAX: nat := 0x7FFF_FFFF_FFFF_FFFF
  const U64_MAX: nat := 0xFFFF_FFFF_FFFF_FFFF
  const U128_MAX: nat := 0xFFFF_FFFF_FFFF_FFFF_FFFF_FFFF_FFFF_FFFF

  function Min(x: nat, y: nat): (r: nat) { if x <= y then x else y }

  function Max(x: nat, y: nat): (r: nat) { if x >= y then x else y }

  lemma {:induction false} LeastExists(s: set<nat>)
    requires s != {}
    ensures exists m :: m in s && forall n | n in s :: m <= n
  {
    var x :| x in s;
    var rest := s - {x};
    if rest == {} {
      assert s == {x};
    } else {
      LeastExists(rest);
      var m :| m in rest && forall n | n in rest :: m <= n;
      var low := if x <= m then x else m;
      forall n | n in s ensures low <= n {
        if n != x { assert n in rest; }
      }
      assert low in s;
    }
  }

  function Least(s: set<nat>): (m: nat)
    requires s != {}
    ensures m in s && forall n | n in s :: m <= n
  {
    LeastExists(s);
    var m :| m in s && forall n | n in s :: m <= n;
    m
  }
}
