/**
 Which orders a placement admits, said of the order's fields, the reference amounts of
 its denoms and the clock.
 */
module Acceptance {
  import opened Arithmetic
  import opened Bytes
  import opened Rational
  import opened Price
  import opened Ticks
  import opened Types
  import opened Amounts
  import opened Exchange

  // ----- fields -----

  /** One of a-z, A-Z, 0-9 and / + : . _ - */
  lemma IDCharacters(b: byte)
    ensures IsIDChar(b) <==>
              var c := b as char;
              'a' <= c <= 'z' || 'A' <= c <= 'Z' || '0' <= c <= '9' || c in ['/', '+', ':', '.', '_', '-']
  {
  }

  /** The fields a limit order needs; its price times its quantity, rounded up, fits in 256 bits. */
  ghost predicate LimitFields(o: Order) {
    && o.orderType == Limit && o.timeInForce in {GTC, IOC, FOK} && o.price.Some?
    && o.quantity * PriceOf(o.price.value).num
       <= 0xFFFF_FFFF_FFFF_FFFF_FFFF_FFFF_FFFF_FFFF_FFFF_FFFF_FFFF_FFFF_FFFF_FFFF_FFFF_FFFF * PriceOf(o.price.value).den
    && (o.goodTil == None || o.goodTil.value.height != 0 || o.goodTil.value.time != None)
  }

  /** The fields a market order needs, whichever side it is on. */
  ghost predicate MarketFields(o: Order) {
    o.orderType == Market && o.timeInForce == IOC && o.price == None && o.goodTil == None
  }

  ghost predicate IDFits(id: OrderID) {
    1 <= |id| <= 40 &&
    forall i | 0 <= i < |id| ::
      var c := id[i] as char;
      'a' <= c <= 'z' || 'A' <= c <= 'Z' || '0' <= c <= '9' || c in ['/', '+', ':', '.', '_', '-']
  }

  /** Exactly the orders with these fields are well-formed. */
  lemma ValidOrderIff(o: Order)
    ensures ValidOrder(o) <==>
              && IDFits(o.id) && |o.baseDenom| != 0 && |o.quoteDenom| != 0 && o.baseDenom != o.quoteDenom
              && 0 < o.quantity <= 0xFFFF_FFFF_FFFF_FFFF_FFFF_FFFF_FFFF_FFFF_FFFF_FFFF_FFFF_FFFF_FFFF_FFFF_FFFF_FFFF
              && (LimitFields(o) || MarketFields(o))
  {
    hide MulCeil, CeilMul, ToRat, IsIDChar;
    ValidIDIff(o.id);
    if o.price.Some? && 0 < o.quantity {
      FitsIff(o.quantity, o.price.value);
    }
  }

  lemma ValidIDIff(id: OrderID)
    ensures ValidOrderID(id) <==> IDFits(id)
  {
    hide IsIDChar;
    forall i | 0 <= i < |id|
      ensures IsIDChar(id[i]) <==>
                var c := id[i] as char;
                'a' <= c <= 'z' || 'A' <= c <= 'Z' || '0' <= c <= '9' || c in ['/', '+', ':', '.', '_', '-']
    {
      IDCharacters(id[i]);
    }
  }

  lemma FitsIff(quantity: nat, price: CanonicalPrice)
    ensures MulCeil(quantity, price).Some? <==>
              quantity * PriceOf(price).num
              <= 0xFFFF_FFFF_FFFF_FFFF_FFFF_FFFF_FFFF_FFFF_FFFF_FFFF_FFFF_FFFF_FFFF_FFFF_FFFF_FFFF * PriceOf(price).den
  {
    hide MulCeil, CeilMul, ToRat;
    MulCeilIsCeiling(quantity, price);
    CeilMulLeast(quantity, PriceOf(price), INT_LIMIT - 1);
  }

  // ----- the grid of a market -----

  /** The reference amount of a denom: its own if it has one, the default otherwise. */
  ghost predicate Reference(own: Option<RefAmount>, default: RefAmount, amount: RefAmount) {
    own == Some(amount) || (own == None && amount == default)
  }

  /** The quantity is a multiple of 10^max(0, param + k), where k is the rounded-up logarithm of the base reference amount. */
  ghost predicate QuantityOnGrid(quantity: int, param: int, k: int) {
    var e := param + k + if param < -0x8000_0000 + 18 then 0x1_0000_0000 else 0;
    e < 0 || quantity % Pow10(e) == 0
  }

  /** The price is a multiple of 10^(param + j), where j is the rounded-up logarithm of the quotient of the reference amounts. */
  ghost predicate PriceOnGrid(p: Pos, param: int, j: int) {
    var e := param + j;
    if 0 <= e then p.num % (p.den * Pow10(e)) == 0 else (p.num * Pow10(-e)) % p.den == 0
  }

  lemma GridIff(params: Params, env: Env, o: Order, base: RefAmount, quote: RefAmount, k: int, j: int)
    requires Reference(env.baseRefAmount, params.defaultRefAmount, base) && Reference(env.quoteRefAmount, params.defaultRefAmount, quote)
    requires IsCeilLog10(Rat(base, Pow10(18)), k) && IsCeilLog10(Rat(quote, base), j) && 0 <= o.quantity
    ensures IsQuantityStepValid(o.quantity, OrderQuantityStep(RefAmountOf(env.baseRefAmount, params), params.quantityStepExponent).0)
       <==> QuantityOnGrid(o.quantity, params.quantityStepExponent, k)
    ensures o.price.Some? ==>
              (IsPriceTickValid(PriceOf(o.price.value), ComputePriceTick(RefAmountOf(env.baseRefAmount, params), RefAmountOf(env.quoteRefAmount, params),
                                                                        params.priceTickExponent).0)
               <==> PriceOnGrid(PriceOf(o.price.value), params.priceTickExponent, j))
  {
    hide IsQuantityStepValid, OrderQuantityStep, IsPriceTickValid, Log10RoundUp, IsCeilLog10, Pow10, ToRat;
    assert RefAmountOf(env.baseRefAmount, params) == base && RefAmountOf(env.quoteRefAmount, params) == quote;
    QuantityStepValue(base, params.quantityStepExponent, k);
    QuantityStepValidIffMultiple(o.quantity, OrderQuantityStep(base, params.quantityStepExponent).0);
    if o.price.Some? {
      ReducedCeilLog10(quote, base);
      CeilLog10Unique(Rat(quote, base), Log10RoundUp(Reduced(quote, base)), j);
      PriceTickValidIffDivides(PriceOf(o.price.value), params.priceTickExponent + j);
    }
  }

  // ----- acceptance -----

  /**
   A placement is refused before matching only for its fields, its denoms, its place on the grid,
   its good-til or its ID: limit orders of every time in force and market orders of either side.
   */
  lemma AcceptedIff(x: State, env: Env, o: Order, base: RefAmount, quote: RefAmount, k: int, j: int)
    requires Reference(env.baseRefAmount, x.params.defaultRefAmount, base) && Reference(env.quoteRefAmount, x.params.defaultRefAmount, quote)
    requires IsCeilLog10(Rat(base, Pow10(18)), k) && IsCeilLog10(Rat(quote, base), j)
    ensures Accepted(x, env, o) <==>
              && IDFits(o.id) && (o.creator, o.id) !in x.reserved
              && env.denomsExist && o.baseDenom != o.quoteDenom && 1 <= |o.baseDenom| <= 255 && 1 <= |o.quoteDenom| <= 255
              && 0 < o.quantity <= 0xFFFF_FFFF_FFFF_FFFF_FFFF_FFFF_FFFF_FFFF_FFFF_FFFF_FFFF_FFFF_FFFF_FFFF_FFFF_FFFF
              && (LimitFields(o) || MarketFields(o))
              && QuantityOnGrid(o.quantity, x.params.quantityStepExponent, k)
              && (o.price.Some? ==> PriceOnGrid(PriceOf(o.price.value), x.params.priceTickExponent, j))
              && (o.goodTil.Some? && o.goodTil.value.height != 0 ==> x.height < o.goodTil.value.height)
              && (o.goodTil.Some? && o.goodTil.value.time.Some? ==> x.time < o.goodTil.value.time.value)
  {
    hide ValidOrder, IDFits, IsQuantityStepValid, OrderQuantityStep, IsPriceTickValid, ComputePriceTick, ToRat, QuantityOnGrid, PriceOnGrid, RefAmountOf,
         IsCeilLog10, Pow10;
    ValidOrderIff(o);
    if 0 <= o.quantity {
      GridIff(x.params, env, o, base, quote, k, j);
    }
  }

  /** The logarithms exist, so every placement is decided by the law above. */
  lemma LogarithmsExist(base: RefAmount, quote: RefAmount) returns (k: int, j: int)
    ensures IsCeilLog10(Rat(base, Pow10(18)), k) && IsCeilLog10(Rat(quote, base), j)
  {
    k := Log10RoundUp(Reduced(base, Pow10(18)));
    j := Log10RoundUp(Reduced(quote, base));
    ReducedCeilLog10(base, Pow10(18));
    ReducedCeilLog10(quote, base);
  }

  /** A market order is accepted to buy exactly if it is accepted to sell. */
  lemma MarketSidesAlike(x: State, env: Env, o: Order)
    requires o.orderType.Market?
    ensures Accepted(x, env, o.(side := Buy)) <==> Accepted(x, env, o.(side := Sell))
  {
    hide Accepted, IDFits, QuantityOnGrid, PriceOnGrid, IsCeilLog10, Pow10;
    var base: RefAmount := if env.baseRefAmount.Some? then env.baseRefAmount.value else x.params.defaultRefAmount;
    var quote: RefAmount := if env.quoteRefAmount.Some? then env.quoteRefAmount.value else x.params.defaultRefAmount;
    var k, j := LogarithmsExist(base, quote);
    AcceptedIff(x, env, o.(side := Buy), base, quote, k, j);
    AcceptedIff(x, env, o.(side := Sell), base, quote, k, j);
  }
}
