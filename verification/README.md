# Quantitative tools: proofs about the portfolio, backtest and audit core

The library computes portfolios (mean-variance, Black-Litterman, risk parity), principal components, technical
indicators, strategy signals, backtests, walk-forward runs, Monte Carlo intervals and risk metrics, and keeps a
hash-chained audit log of decisions. This project models that core in Dafny and proves what it promises, over every
input and every run.

Numbers are exact reals. `std::sqrt` is a parameter `sqrt` about which only `IsSqrt` is assumed. Exceptions are the
`Result` and `Error` values of `Outcome.dfy`; error texts are shortened to their fixed part. Every threshold of the
source (1e-8, 1e-10, 1e-12, 1e-15, 1e-30, 1e-300) is kept as a constant.

## How it is organised

- `Reals`, `LinearAlgebra`, `Arrangements`: products of reals, vectors and matrices, Cauchy-Schwarz, sorting and
  order statistics.
- `Inverse`: Gauss-Jordan inversion on an array of rows, in place. The invariant is that the solutions of the
  augmented system never change while its first columns become unit columns.
- `Covariance`, `Moments`, `TwoFunds`, `MaxSharpe`, `MeanVariance`, `Shortfalls`: the covariance estimate, what it says of
  a portfolio's own returns, the two closed-form funds, what each objective delivers, and inputs on which the code misses what its names promise, those of the later
  modules included.
- `Posterior`, `Conditioning`, `BlackLitterman`, `Equilibrium`, `RiskParity`: the posterior as a minimiser, which
  inversions cannot fail, the full model and its front end, what its prior and its tau mean, the damped fixed-point
  iteration.
- `Jacobi`, `Spectrum`, `Pca`: cyclic rotations in place, how close they come to eigenvectors, and the factors built
  from them.
- `Market`, `Indicators`, `Strategies`, `Causality`, `Engine`, `Drawdown`, `Backtest`: bars to indicators to signals to
  trades to a result, and the proof that no layer looks ahead.
- `IndicatorLaws`, `SignalLaws`, `Ledger`: what indicators, signals and trades mean in terms of prices, apart from how
  they are computed.
- `ParameterGrid`, `Stitching`, `WalkForward`, `Training`: parameter combinations, windows, joining their results, and
  which bars parameters are chosen on.
- `RiskReturn`, `MonteCarlo`: metrics of a price series and resampled intervals.
- `AuditRecord`, `AuditLog`, `AuditRuns`: what a record hash covers, the store with its writer and verifier, and every
  interleaving of concurrent writes.

A loop of the source is a method with a loop, proved equal to a specification function or to the property itself;
the theorems are lemmas about those functions.

## What the proofs found

- `max_sharpe` returns the portfolio of highest Sharpe ratio exactly when there is one asset, or the sum of the raw
  weights is at least 1e-12, or that sum is below 1e-12 in magnitude and all assets have one common non-negative excess
  return (`MaxSharpe.SharpePromiseHolds`). With a negative sum it returns the unique worst portfolio;
  `Shortfalls.MaxSharpeMisses` is such an input.
- A volatility target strictly between the two funds' volatilities is met exactly when those volatilities differ by at
  least 1e-12 and, besides, their squares differ by at least 1e-12 or the target happens to be the volatility of the
  half-way blend. `Shortfalls.TargetVolatilityMisses` is an input whose variances are too close, and
  `Shortfalls.TargetVolatilityMissesAgain` one whose variances are far enough apart and whose volatilities are not. A
  return target strictly between the funds' returns is met exactly when those differ by at least 1e-12.
- On valid input the mean-variance optimizer never fails as singular: the ridge rules it out for up to 100 assets. It
  fails as degenerate exactly when every fully invested portfolio has a variance above 1e12.
- With tau and risk aversion of at least 1e-5 and scaled covariances of at most 9e10, Black-Litterman never fails as
  singular: it fails exactly when a view has a variance below 1e-12 or the raw weights cancel, and a view on one asset
  never has once tau is 1e-4.
- Black-Litterman returns the portfolio of highest Sharpe ratio under the posterior exactly when there is one asset or
  the sum of the raw weights is positive; the code tests only its magnitude. When the sum is negative no portfolio is
  worse; `Shortfalls.BlackLittermanMisses` is such a request. The sign shows in the reported return.
- A run with positive capital and prices reports only positive equity exactly when every short is marked below twice
  its entry price and closed below that over one plus the commission, the forced close on the last bar included.
  `Shortfalls.ShortRunBelowZero` is a run that ends at -25.
- Risk parity may stop early with uneven contributions when the variance is below 1e-12; each is then at most 1e-6 of
  its weight times its asset's volatility. `Shortfalls.RiskParityStopsUneven` stops before its first update. It cannot
  happen when no covariance is negative, nor when every long portfolio has a variance of at least 1e-12; then an early
  stop means contributions equal to 1e-10.
- The break on a vanishing total in the risk-parity loop can never fire, because the new total is at least one half.
- Every shuffle of a Monte Carlo run ends at the same equity, so the reported final-equity interval is a single value;
  for the trades of a backtest without commission it is that backtest's own final equity.
- The Black-Litterman mean does not depend on tau: each view's variance is proportional to tau as well.
- A walk-forward run that reaches its windows fails only if the strategy accepts none of the parameter combinations.
- The hash chain needs one writer. Two writers over one store that both read before either appends break the chain
  unless two record hashes happen to agree. The link of the first record is whatever its caller supplied.

## Model

| member | source | states |
|---|---|---|
| Inverse.MatInverse | src/standard_tools/portfolio/optimizer.cpp:108-172 | A returned matrix undoes the input from both sides, through every swap, normalisation and skipped zero factor; a singular matrix is always refused; a square matrix is refused only when some vector with a unit entry is sent below 1e-15; empty and non-square input get their own errors |
| Inverse.FindPivot | src/standard_tools/portfolio/optimizer.cpp:126-136 | The pivot is the largest entry in magnitude at or below the diagonal |
| Inverse.EliminateColumn | src/standard_tools/portfolio/optimizer.cpp:144-162 | The pivot row is divided by its pivot and every other row loses its multiple of it, in place |
| Inverse.PivotColumn | src/standard_tools/portfolio/optimizer.cpp:126-163 | One pass keeps the solution set of the augmented system and adds one unit column |
| Inverse.EliminationKeeps | src/standard_tools/portfolio/optimizer.cpp:144-162 | Normalising and eliminating neither adds nor loses a solution of the augmented system |
| Inverse.ReducedIsInverse | src/standard_tools/portfolio/optimizer.cpp:165-171 | Once the left block is the identity, the right block is a two-sided inverse, whatever rows were swapped |
| Inverse.SmallPivots | src/standard_tools/portfolio/optimizer.cpp:137-139 | If no pivot reaches the threshold the input itself is near singular |
| Inverse.InverseProducts | src/standard_tools/portfolio/optimizer.cpp:108-172 | m times its inverse and the inverse times m are both the identity, entry by entry |
| Inverse.InverseUnique | src/standard_tools/portfolio/optimizer.cpp:108-172 | There is only one matrix the inversion can return |
| Inverse.InverseKillsNullVectors | src/standard_tools/portfolio/optimizer.cpp:108-172 | A matrix with a non-zero null vector has no inverse, so the inversion rejects it |
| Covariance.ValidateReturnMatrix | src/standard_tools/portfolio/optimizer.cpp:28-68 | Accepts exactly the well-formed return matrices; each rejected family gets its error |
| Covariance.SampleCovariance | src/standard_tools/portfolio/optimizer.cpp:174-191 | Filling one triangle and mirroring it yields the sample covariance in every entry |
| Covariance.RidgedCovariance | src/standard_tools/portfolio/optimizer.cpp:363-368 | Means and ridged covariance as the optimizers use them; the next rows say what these are |
| Moments.PortfolioMean | src/standard_tools/portfolio/optimizer.cpp:193-199 | The weighted means times the number of observations are the sum of the portfolio return series |
| Moments.PortfolioVariance | src/standard_tools/portfolio/optimizer.cpp:174-191 | The quadratic form of the sample covariance is the sample variance of the portfolio return series |
| Covariance.CovBilinear | src/standard_tools/portfolio/optimizer.cpp:174-191 | The covariance of two portfolios is the scaled inner product of their return series |
| Covariance.SampleCovNonNegative | src/standard_tools/portfolio/optimizer.cpp:174-191 | No portfolio has negative sample variance |
| Covariance.CovCauchySchwarz | src/standard_tools/portfolio/optimizer.cpp:174-191 | The squared covariance of two portfolios is at most the product of their sample variances, even for a degenerate sample |
| Covariance.SigmaPositiveDefinite | src/standard_tools/portfolio/optimizer.cpp:363-368 | The ridged covariance is symmetric and at least 1e-8 times the identity, hence positive definite |
| TwoFunds.BoundedBelowNotNearSingular | src/standard_tools/portfolio/optimizer.cpp:137-139 | A matrix bounded below by the ridge passes the pivot test |
| TwoFunds.MinVarianceIsOptimal | src/standard_tools/portfolio/optimizer.cpp:372-379 | The minimum-variance portfolio is the unique global optimum over all weights that sum to 1 |
| TwoFunds.InverseGivesMinVariance | src/standard_tools/portfolio/optimizer.cpp:372-379 | The closed form is that optimum and its variance is the reciprocal of the sum that the degeneracy guard reads |
| TwoFunds.CovarianceWithMinVariance | src/standard_tools/portfolio/optimizer.cpp:309-315 | Every fully invested portfolio has covariance var_mv with the minimum-variance portfolio |
| TwoFunds.SquaredSharpeBound | src/standard_tools/portfolio/optimizer.cpp:381-393 | No weight vector beats the tangency portfolio on squared Sharpe ratio, and no other fully invested one ties with it |
| TwoFunds.TangencySign | src/standard_tools/portfolio/optimizer.cpp:386-393 | The sign of the tangency portfolio's excess return is the sign of sum_k |
| TwoFunds.FundsUnique | src/standard_tools/portfolio/optimizer.cpp:372-393 | Covariance and excess returns determine both funds |
| TwoFunds.BlendIsEfficient | src/standard_tools/portfolio/optimizer.cpp:217-225 | Two-fund separation: no portfolio with the same expected return has less variance than a blend |
| TwoFunds.BlendVariance | src/standard_tools/portfolio/optimizer.cpp:309-319 | The variance of a blend grows with the square of the share, without a cross term |
| MaxSharpe.TangencyIsExtreme | src/standard_tools/portfolio/optimizer.cpp:386-393 | With positive sum_k the tangency portfolio has the highest Sharpe ratio, with negative sum_k the uniquely lowest |
| MaxSharpe.MinVarianceBeaten | src/standard_tools/portfolio/optimizer.cpp:389-390 | If two assets differ in excess return, the fall-back portfolio is beaten by some other one |
| MaxSharpe.MaxSharpeExactly | src/standard_tools/portfolio/optimizer.cpp:386-402 | The returned fund maximises the Sharpe ratio if and only if the stated condition on sum_k holds |
| MaxSharpe.NoBetterIsSharpeOrder | src/standard_tools/portfolio/optimizer.cpp:260-275 | Comparing without divisions is comparing Sharpe ratios |
| MeanVariance.Optimize | src/standard_tools/portfolio/optimizer.cpp:340-423 | Validation errors come first; a valid request fails only when every portfolio is too risky; otherwise the weights sum to 1, are efficient, meet the objective as stated, and return, volatility and ratio are theirs |
| MeanVariance.ChooseWeights | src/standard_tools/portfolio/optimizer.cpp:400-416 | Each objective's weights are a blend of the two funds that meets it |
| MeanVariance.FundWeights | src/standard_tools/portfolio/optimizer.cpp:372-393 | Both funds, or a refusal exactly when no fully invested portfolio has variance 1e12 or less |
| MeanVariance.TargetVolatilityBlend | src/standard_tools/portfolio/optimizer.cpp:291-320 | Outside the range, or when the two volatilities are less than 1e-12 apart, one of the funds; inside, the target is hit if and only if the variances are 1e-12 apart or the half-way blend happens to fit |
| MeanVariance.TargetVolatilityHit | src/standard_tools/portfolio/optimizer.cpp:277-289 | The chosen root lies in the unit interval and solves the variance equation under exactly that condition |
| MeanVariance.ReturnHit | src/standard_tools/portfolio/optimizer.cpp:405-411 | Clamping the share is clamping the target return between the two funds' returns |
| MeanVariance.PortfolioMetrics | src/standard_tools/portfolio/optimizer.cpp:260-275 | Return, volatility and ratio of the weights, the lowest double when there is no risk |
| MeanVariance.BuildResult | src/standard_tools/portfolio/optimizer.cpp:322-336 | Keys the weights by label and accepts exactly the results the validation allows |
| MeanVariance.SigmaNeverRejected | src/standard_tools/portfolio/optimizer.cpp:370 | The ridged covariance of valid input always inverts |
| MeanVariance.DegenerateIsTooRisky | src/standard_tools/portfolio/optimizer.cpp:376-378 | The degeneracy test fires exactly when every fully invested portfolio has variance above 1e12 |
| MeanVariance.MaxSharpePromise | src/standard_tools/portfolio/optimizer.cpp:340-423 | The reported Sharpe ratio bounds that of every fully invested portfolio if and only if the condition holds |
| MeanVariance.TargetVolatilityPromise | src/standard_tools/portfolio/optimizer.cpp:291-320 | For a delivered portfolio: a target strictly between the volatilities of the two funds is the reported volatility if and only if these are 1e-12 apart and either the variances are 1e-12 apart or the half-way blend fits; other targets give a fund |
| MeanVariance.TargetReturnPromise | src/standard_tools/portfolio/optimizer.cpp:405-411 | For a delivered portfolio: a target strictly between the returns of the two funds is the reported return if and only if these are 1e-12 apart |
| MeanVariance.DeliveredMeasures | src/standard_tools/portfolio/optimizer.cpp:260-275 | The reported return is the average of the portfolio return series, the squared volatility its sample variance plus 1e-8 times the squared weights, and the ratio their quotient over the risk-free rate |
| Shortfalls.MaxSharpeMisses | src/standard_tools/portfolio/optimizer.cpp:386-402 | A request for two assets losing 1% and 2% without moving is valid, and whatever portfolio is delivered, some fully invested one has a higher Sharpe ratio than the reported one |
| Shortfalls.TargetVolatilityMisses | src/standard_tools/portfolio/optimizer.cpp:277-289 | A request for two assets earning 1.01% and 1% without moving, with a target strictly inside the range: the reported volatility of any delivered portfolio is not the target |
| Shortfalls.TargetVolatilityMissesAgain | src/standard_tools/portfolio/optimizer.cpp:302-304 | The same for two equally risky assets whose funds differ by more than 1e-12 in variance and by less in volatility |
| Posterior.PosteriorIsUniqueMinimiser | src/standard_tools/portfolio/black_litterman.cpp:368-382 | The posterior mean is the unique minimiser of distance from the prior plus weighted view errors |
| Posterior.LossExpansion | src/standard_tools/portfolio/black_litterman.cpp:368-382 | Moving away from the posterior mean raises that loss by exactly the posterior precision's quadratic form |
| Posterior.AgreeingViewsKeepPrior | src/standard_tools/portfolio/black_litterman.cpp:368-382 | Views that repeat the prior leave it unchanged |
| Posterior.SingleViewHalfway | src/standard_tools/portfolio/black_litterman.cpp:340-382 | A single view is met exactly halfway, whatever tau is |
| Posterior.PosteriorTilt | src/standard_tools/portfolio/black_litterman.cpp:368-382 | The posterior mean leaves the prior only along the views' covariances, in proportion to the remaining view errors |
| Posterior.ViewsReduceUncertainty | src/standard_tools/portfolio/black_litterman.cpp:371-383 | Views never add uncertainty in any direction |
| Posterior.InversePositiveDefinite | src/standard_tools/portfolio/black_litterman.cpp:368-369 | The prior precision is positive definite |
| Conditioning.ScaledNotNearSingular | src/standard_tools/portfolio/black_litterman.cpp:340-369 | A ridged covariance times a large enough factor passes every pivot test |
| Conditioning.InverseBoundedBelow | src/standard_tools/portfolio/black_litterman.cpp:368-369 | The prior precision is bounded below by the reciprocal of the size of the scaled covariances |
| Conditioning.PrecisionNotNearSingular | src/standard_tools/portfolio/black_litterman.cpp:371-373 | So the posterior precision passes every pivot test, whatever the views, when these are moderate |
| BlackLitterman.ValidateRequest | src/standard_tools/portfolio/black_litterman.cpp:254-304 | Accepts exactly the well-formed requests |
| Equilibrium.MarketIsBest | src/standard_tools/portfolio/black_litterman.cpp:330-338 | At the prior means no portfolio has more mean less half the risk aversion times variance than the market-cap weights, and no other has as much |
| Equilibrium.TauScalesUncertainty | src/standard_tools/portfolio/black_litterman.cpp:340-383 | Multiplying tau leaves the posterior mean alone and multiplies what the posterior adds to the covariance |
| BlackLitterman.OmegaInverse | src/standard_tools/portfolio/black_litterman.cpp:340-352 | Reciprocal view variances, or a refusal naming a view whose variance is below 1e-12 |
| BlackLitterman.ViewMatrices | src/standard_tools/portfolio/black_litterman.cpp:354-366 | Accumulating view by view in place yields the view precision and the weighted view targets |
| BlackLitterman.PosteriorMoments | src/standard_tools/portfolio/black_litterman.cpp:330-383 | Posterior mean and covariance of the prior pinned down by Equilibrium.MarketIsBest, or the reason there is none |
| BlackLitterman.TangencyWeights | src/standard_tools/portfolio/black_litterman.cpp:385-393 | The solution of scaled covariance times weights equals mean, scaled to sum to 1 and hence the tangency portfolio; or the reason there is none |
| BlackLitterman.Optimise | src/standard_tools/portfolio/black_litterman.cpp:308-411 | A result holds the posterior of the request, its tangency weights and their return, volatility and Sharpe ratio for every label; a view without variance or cancelling weights always refuse the request; an inversion can fail only outside its ordinary range, and an ordinary request is refused exactly for those two reasons |
| BlackLitterman.BuildViews | src/standard_tools/portfolio/black_litterman.cpp:442-456 | One unit row per view at the first asset with its label; fails exactly on an unknown label |
| BlackLitterman.OptimiseSimplified | src/standard_tools/portfolio/black_litterman.cpp:413-467 | The front end answers exactly as the full model on the expanded request: an invalid one fails with the same kinds of error, a view without variance or cancelling weights always refuse it, and an ordinary one is refused exactly for those two reasons |
| BlackLitterman.OrdinaryRequest | src/standard_tools/portfolio/black_litterman.cpp:340-387 | tau and risk aversion of 1e-5 and scaled covariances of at most 9e10 rule out all three singular inversions |
| BlackLitterman.LongViewsConfident | src/standard_tools/portfolio/black_litterman.cpp:340-352 | No view is refused for zero confidence when tau times its squared length is at least 1e-4 |
| BlackLitterman.SimplifiedConfident | src/standard_tools/portfolio/black_litterman.cpp:442-456 | So no one-asset view is once tau is 1e-4 |
| BlackLitterman.PosteriorUnique | src/standard_tools/portfolio/black_litterman.cpp:368-383 | A request has one posterior mean and covariance |
| BlackLitterman.PosteriorBoundedBelow | src/standard_tools/portfolio/black_litterman.cpp:371-383 | The posterior covariance is positive definite, at least 1e-8 times the identity |
| BlackLitterman.ResultIsMinimiser | src/standard_tools/portfolio/black_litterman.cpp:308-411 | Every other mean has a larger loss than the returned one |
| BlackLitterman.ResultIsBestExactly | src/standard_tools/portfolio/black_litterman.cpp:385-393 | No fully invested portfolio has a higher Sharpe ratio under the posterior than the returned one if and only if there is one asset or the raw weights of the request sum to more than zero; when they sum to less none has a lower |
| BlackLitterman.ReturnTellsBest | src/standard_tools/portfolio/black_litterman.cpp:385-411 | The reported return has the sign of that sum |
| Shortfalls.BlackLittermanMisses | src/standard_tools/portfolio/black_litterman.cpp:385-393 | A request for two assets that never move, with a view that the first loses 2%, is ordinary and not refused, and whatever result answers it is a losing portfolio that no other one is worse than |
| BlackLitterman.SingleAssetViewHalfway | src/standard_tools/portfolio/black_litterman.cpp:413-467 | One view on one asset: its posterior return is the midpoint of the equilibrium return and the view |
| RiskParity.Allocate | src/standard_tools/portfolio/risk_parity.cpp:142-231 | Invalid or riskless input fails; otherwise the weights are positive, sum to 1 and are those after the first settled pass or the last one; return, volatility and Sharpe ratio are theirs, and stopping early means the contributions are equal to 1e-10 or negligible |
| RiskParity.AllocatedMeasures | src/standard_tools/portfolio/risk_parity.cpp:218-230 | The reported return is the average of the portfolio return series and the squared volatility its sample variance |
| RiskParity.Iterate | src/standard_tools/portfolio/risk_parity.cpp:174-217 | The weights are strictly positive, sum to 1 and equal the specified sequence at the first settled pass, or at the limit when none is settled before |
| RiskParity.UpdateKeepsSimplex | src/standard_tools/portfolio/risk_parity.cpp:204-216 | Each update keeps the weights positive and summing to 1, whatever the signs of the contributions |
| RiskParity.NextTotal | src/standard_tools/portfolio/risk_parity.cpp:204-213 | The new total is at least one half, so the break on a vanishing total never fires |
| RiskParity.ContributionsSum | src/standard_tools/portfolio/risk_parity.cpp:179-187 | Risk contributions add up to the portfolio variance |
| RiskParity.FixedPointExactly | src/standard_tools/portfolio/risk_parity.cpp:204-216 | A portfolio is left unchanged by the update if and only if its contributions, each raised to at least 1e-12, are all equal; when every one is at least 1e-12 that is equality of the contributions themselves |
| RiskParity.SettledExactly | src/standard_tools/portfolio/risk_parity.cpp:188-202 | The loop stops early exactly when the contributions are balanced to 1e-10 or, the variance being below 1e-12, each squared is at most the squared weight times the asset variance times 1e-12 |
| RiskParity.EarlyStopBalanced | src/standard_tools/portfolio/risk_parity.cpp:188-202 | When no covariance is negative, or every long portfolio has a variance of at least 1e-12, stopping early means the contributions are equal to 1e-10 |
| Shortfalls.RiskParityStopsUneven | src/standard_tools/portfolio/risk_parity.cpp:188-202 | Two assets that hedge each other: the request is served, stops at once at equal weights, and the contributions are not equal to 1e-10 |
| RiskParity.ContributionBound | src/standard_tools/portfolio/risk_parity.cpp:179-187 | A squared contribution is at most the squared weight times the asset and portfolio variances |
| Jacobi.JacobiEigen | src/standard_tools/analysis/calculator.cpp:209-267 | At every exit the vectors are orthonormal, the rotated matrix is the input seen in them, its diagonal is returned, and trace and symmetry are kept; no sweep is made exactly when the mass is below 1e-30, at most 100 are, fewer only when the mass has fallen below that, two rows always get there, and a run that sweeps lowers the mass |
| Jacobi.Rotate | src/standard_tools/analysis/calculator.cpp:234-257 | One rotation in place keeps the decomposition, zeroes its entry and removes exactly its square from the off-diagonal mass |
| Jacobi.Angle | src/standard_tools/analysis/calculator.cpp:234-238 | The computed cosine and sine lie on the unit circle and annihilate the entry, turning by at most 45 degrees |
| Jacobi.Sweep | src/standard_tools/analysis/calculator.cpp:229-259 | A sweep keeps the decomposition and lowers the off-diagonal mass whenever it is at least 1e-30, by the square of the first pair at least when that is 1e-15 in magnitude, and to zero for two rows |
| Jacobi.RotatedPair | src/standard_tools/analysis/calculator.cpp:229-259 | Rotating a pair that is not skipped lowers the mass below that of the start of the sweep |
| Jacobi.RotatedOff | src/standard_tools/analysis/calculator.cpp:240-251 | The off-diagonal sum of squares falls by exactly the square of the zeroed entry |
| Jacobi.RotatedTrace | src/standard_tools/analysis/calculator.cpp:240-251 | A rotation keeps the trace |
| Jacobi.RotatedOrthonormal | src/standard_tools/analysis/calculator.cpp:252-257 | A rotation keeps rows and columns of the vectors orthonormal |
| Jacobi.DecompositionStep | src/standard_tools/analysis/calculator.cpp:234-257 | A zeroing rotation keeps all parts of the decomposition together |
| Pca.Analyse | src/standard_tools/analysis/calculator.cpp:476-588 | Succeeds exactly on valid input; loadings are orthonormal, each factor's sample variance is its eigenvalue, eigenvalues are non-negative and descending; up to the remaining off-diagonal mass the factors are uncorrelated, every loading is an eigenvector, and no unit vector orthogonal to the earlier loadings has more variance; that mass is below 1e-30 for two series or fewer than 100 sweeps and less than the covariance had otherwise; the ratios of a full analysis sum to 1 |
| Moments.FactorVariance | src/standard_tools/analysis/calculator.cpp:576-584 | The sample variance of a factor series is the quadratic form of its loading |
| Spectrum.EntryBelowOff | src/standard_tools/analysis/calculator.cpp:219-227 | An off-diagonal entry is bounded by the whole off-diagonal mass |
| Spectrum.ColumnIsNearEigenvector | src/standard_tools/analysis/calculator.cpp:209-267 | At any stopping point each vector misses being an eigenvector, in squares, by at most the off-diagonal mass |
| Spectrum.VarianceBounded | src/standard_tools/analysis/calculator.cpp:209-267 | A unit vector orthogonal to the directions of larger diagonal entries exceeds the next one in variance, squared, by at most twice that mass |
| Spectrum.Parseval | src/standard_tools/analysis/calculator.cpp:209-267 | Coordinates along the vectors keep inner products |
| Pca.SortDescending | src/standard_tools/analysis/calculator.cpp:529-533 | A permutation of the indices with non-increasing eigenvalues |
| Pca.Loading | src/standard_tools/analysis/calculator.cpp:557-574 | The eigenvector up to a sign that follows the sign convention |
| Pca.RatiosSumToOne | src/standard_tools/analysis/calculator.cpp:535-555 | With all components kept and positive total variance, the explained ratios sum to 1 |
| Indicators.CalculateSMA | src/standard_tools/indicators/calculator.cpp:157-194 | The loop yields each bar's trailing mean |
| IndicatorLaws.SmaLaw | src/standard_tools/indicators/calculator.cpp:157-194 | The average exists from bar period - 1 on, times the period is the sum of the last closes, and lies between them |
| Indicators.CalculateEMA | src/standard_tools/indicators/calculator.cpp:196-239 | The carried average is the recursive one seeded by a plain mean |
| IndicatorLaws.EmaLaw | src/standard_tools/indicators/calculator.cpp:81-105 | The average starts with a plain mean, then weighs the new close twice against period - 1 times itself, and lies between the closes so far |
| IndicatorLaws.AveragesTrail | src/standard_tools/indicators/calculator.cpp:81-105 | On a straight line both averages trail the close by slope times (period - 1) / 2 from their first value on |
| Indicators.CalculateRSI | src/standard_tools/indicators/calculator.cpp:241-304 | Wilder-smoothed gains and losses as a relative strength index |
| IndicatorLaws.NetGain | src/standard_tools/indicators/calculator.cpp:241-304 | Average gain less average loss is the smoothed change of the close |
| IndicatorLaws.OneSided | src/standard_tools/indicators/calculator.cpp:241-304 | Without falls the average loss is zero, without rises the average gain |
| Indicators.RsiValue | src/standard_tools/indicators/calculator.cpp:149-155 | The index always lies between 0 and 100 |
| IndicatorLaws.RsiShare | src/standard_tools/indicators/calculator.cpp:149-155 | The index times all movement is 100 times the gains |
| IndicatorLaws.RsiMirrors | src/standard_tools/indicators/calculator.cpp:241-304 | Mirrored closes have 100 minus the index |
| Indicators.CalculateMACD | src/standard_tools/indicators/calculator.cpp:306-382 | Difference of two averages, its own average and the histogram, all missing when a parameter is zero |
| IndicatorLaws.MacdLaw | src/standard_tools/indicators/calculator.cpp:306-382 | The line is fast less slow average where both exist, its signal the average of that line, the histogram their difference |
| IndicatorLaws.MacdTrails | src/standard_tools/indicators/calculator.cpp:306-382 | On a straight line the MACD is slope times half the difference of the periods |
| Indicators.EmaOfOptions | src/standard_tools/indicators/calculator.cpp:107-147 | The average of a partly missing series equals its bar-by-bar definition; with period 0 every value is missing |
| IndicatorLaws.OptEmaIsEma | src/standard_tools/indicators/calculator.cpp:107-147 | Averaging a line that starts late is averaging its values |
| Indicators.CalculateBollinger | src/standard_tools/indicators/calculator.cpp:384-445 | Middle, upper and lower bands |
| IndicatorLaws.BandLaw | src/standard_tools/indicators/calculator.cpp:384-445 | A band is the moving average plus its width times a deviation whose square is the sample variance of the same closes |
| Indicators.CalculateATR | src/standard_tools/indicators/calculator.cpp:447-491 | Smoothed true range |
| IndicatorLaws.TrueRangeLaw | src/standard_tools/indicators/calculator.cpp:447-491 | The true range is the range of the bar stretched to the previous close |
| IndicatorLaws.AtrSteps | src/standard_tools/indicators/calculator.cpp:447-491 | The average range starts with a plain mean, then takes one part of the new range to period - 1 of itself |
| IndicatorLaws.AtrWithin | src/standard_tools/indicators/calculator.cpp:447-491 | It lies between the true ranges so far |
| Indicators.CalculateOBV | src/standard_tools/indicators/calculator.cpp:493-529 | Signed cumulative volume |
| IndicatorLaws.ObvLaw | src/standard_tools/indicators/calculator.cpp:493-529 | Volume adds on a rise and subtracts on a fall; mirrored closes mirror everything after the first bar |
| Indicators.CalculateVWAP | src/standard_tools/indicators/calculator.cpp:531-559 | Cumulative volume-weighted typical price |
| IndicatorLaws.VwapWithin | src/standard_tools/indicators/calculator.cpp:531-559 | The price exists once there is volume and lies between the typical prices so far |
| IndicatorLaws.VwapEven | src/standard_tools/indicators/calculator.cpp:531-559 | With equal volumes it is the plain mean of a third of high, low and close |
| Indicators.Calculate | src/standard_tools/indicators/calculator.cpp:563-593 | Every indicator by name, with its parameter errors and too-short exits |
| SignalLaws.NamedAverages | src/standard_tools/indicators/calculator.cpp:563-593 | The moving averages by name, over twenty bars by default |
| SignalLaws.NamedRanges | src/standard_tools/indicators/calculator.cpp:563-593 | Strength index and true range by name, over fourteen bars by default, and the two volume indicators |
| SignalLaws.NamedMacd | src/standard_tools/indicators/calculator.cpp:563-593 | The MACD by name over 12, 26 and 9 bars by default, its signal and histogram under their own names |
| SignalLaws.NamedBands | src/standard_tools/indicators/calculator.cpp:563-593 | The bands by name over 20 bars and 2 deviations by default, each under its own name |
| SignalLaws.BadPeriodRejected | src/standard_tools/indicators/calculator.cpp:563-593 | A period is rejected exactly when it is not a positive whole number |
| Causality.CalculatedCausal | src/standard_tools/indicators/calculator.cpp:157-593 | Every indicator on the first k bars is the first k of its values on the whole series, early exits included |
| Causality.SignalsCausal | src/standard_tools/backtest/strategy.cpp:43-199 | So are the signals of every strategy, whatever its parameters, and a rejection does not depend on later bars |
| Strategies.CrossoverSignals | src/standard_tools/backtest/strategy.cpp:43-75 | The loop emits a signal exactly where the lines cross |
| SignalLaws.CrossoverMeans | src/standard_tools/backtest/strategy.cpp:43-75 | A Buy marks exactly the bars where the fast line gets above the slow one, a Sell those where it gets below |
| SignalLaws.LatestSignalHolds | src/standard_tools/backtest/strategy.cpp:43-75 | While both lines exist the latest signal tells which of them is not below the other |
| SignalLaws.SmaCrossoverMeans | src/standard_tools/backtest/strategy.cpp:93-113 | sma_crossover buys exactly where the mean of the last fast closes gets above that of the last slow ones and sells where it gets below, over 10 and 30 bars by default |
| SignalLaws.SmaLatestSignal | src/standard_tools/backtest/strategy.cpp:93-113 | While its latest signal is a Buy the fast mean is not below the slow one, while it is a Sell not above |
| SignalLaws.MacdCrossoverMeans | src/standard_tools/backtest/strategy.cpp:181-199 | macd_crossover buys exactly where the histogram turns positive and sells where it turns negative |
| SignalLaws.MacdLatestSignal | src/standard_tools/backtest/strategy.cpp:181-199 | While its latest signal is a Buy the histogram is not negative, while it is a Sell not positive |
| Strategies.RsiSignals | src/standard_tools/backtest/strategy.cpp:115-144 | The loop emits the threshold signal of each bar |
| SignalLaws.RsiThresholdMeans | src/standard_tools/backtest/strategy.cpp:115-144 | rsi_threshold buys exactly where less than 30 percent (or as set) of all smoothed movement is gain and sells where more than 70 percent is |
| Strategies.BollingerSignals | src/standard_tools/backtest/strategy.cpp:146-179 | The loop emits the reversion signal of each bar |
| SignalLaws.BollingerMeans | src/standard_tools/backtest/strategy.cpp:146-179 | The reversion strategy sells exactly above the mean plus the set number of deviations and buys below the mean less as many |
| SignalLaws.BuyAndHoldMeans | src/standard_tools/backtest/strategy.cpp:77-91 | buy_and_hold buys at the first bar and is quiet after it |
| Strategies.Signals | src/standard_tools/backtest/strategy.cpp:77-220 | One signal per bar for every built-in strategy, or the indicator's error |
| Engine.MoneyConserved | src/standard_tools/backtest/engine.cpp:21-96 | Final equity is initial capital plus the profit of all trades |
| Engine.EquityExplained | src/standard_tools/backtest/engine.cpp:215-264 | Each equity point is initial capital plus realised profit plus the open position's gain net of its entry commission |
| Engine.TradesChained | src/standard_tools/backtest/engine.cpp:225-279 | Trades form one unbroken chain: each starts where and when the previous one ended, on the other side |
| Ledger.TradesBooked | src/standard_tools/backtest/engine.cpp:21-96 | Every trade of a run stakes the capital and all earlier profits, entry commission included, and earns its quantity times the move in its favour less commission on both prices |
| Ledger.TradesFollowSignals | src/standard_tools/backtest/engine.cpp:215-279 | Every trade enters at the open after a signal for its side and leaves at the open after the first signal against it, or at the last close |
| Ledger.NoTradesNoSignals | src/standard_tools/backtest/engine.cpp:215-279 | A run is without trades exactly when it saw no signal before its last bar |
| Engine.SolventExactly | src/standard_tools/backtest/engine.cpp:37-54 | With positive capital and prices and commission below 1, every reported equity point, the liquidated last one included, and the cash after every close are positive if and only if every short is marked below twice its entry price and closed, by a signal or on the last bar, below that over 1 + c |
| Engine.FinalPoint | src/standard_tools/backtest/engine.cpp:269-279 | The last reported point is the cash left by the forced close; the others are the marks of their bars |
| Shortfalls.ShortRunBelowZero | src/standard_tools/backtest/engine.cpp:269-279 | A short entered at 100 and force-closed at 150 under a commission of one half is marked at 50 and reported at -25 |
| Drawdown.ComputeMaxDrawdown | src/standard_tools/backtest/engine.cpp:104-119 | The running-peak loop computes its specification |
| Drawdown.OnePassIsPairwise | src/standard_tools/backtest/engine.cpp:104-119 | On positive values the one-pass loop finds the worst fall between any two points, and it is never total |
| Drawdown.StartInFront | src/standard_tools/backtest/monte_carlo.cpp:22-39 | Starting the peak at a value is putting that value in front of the curve |
| Backtest.Run | src/standard_tools/backtest/engine.cpp:188-309 | The whole run equals its specification, with its errors in order |
| Backtest.RunSignals | src/standard_tools/backtest/engine.cpp:215-279 | The bar-by-bar loop and the final liquidation produce the curve and the trades of the state machine |
| Backtest.ComputeMetrics | src/standard_tools/backtest/engine.cpp:121-184 | Total return, drawdown and Sharpe ratio of the curve |
| Ledger.WinRateCounts | src/standard_tools/backtest/engine.cpp:281-309 | The win rate times the number of trades is the number of trades with a profit |
| Ledger.SharpeMeasures | src/standard_tools/backtest/engine.cpp:121-150 | The ratio exists exactly with periods and deviation, and times the population deviation is the mean excess return annualised by the root of the periods |
| Ledger.OneReturnNoSharpe | src/standard_tools/backtest/engine.cpp:121-150 | A single return has no ratio |
| Ledger.PeriodsCompound | src/standard_tools/backtest/engine.cpp:165-175 | The period returns compound from the first point of the curve to every other |
| Backtest.RunConservesMoney | src/standard_tools/backtest/engine.cpp:198-309 | Final equity is capital plus trade profits, trades are chained, and total return is measured against initial capital |
| Ledger.BuyAndHoldEarnsTheRise | src/standard_tools/backtest/engine.cpp:188-309 | A buy-and-hold run turns capital into capital times last close over second open, less commission on both ends |
| Backtest.NoLookahead | src/standard_tools/backtest/engine.cpp:222-279 | A run on the first m bars has the same equity points before bar m - 1 and the same completed trades as a run on the whole series, and fails exactly when it does |
| Backtest.ReportedDrawdown | src/standard_tools/backtest/engine.cpp:152-184 | When the shorts stay within those bounds, every reported equity point of a run is positive and its drawdown is the worst fall between any two of them, never total |
| ParameterGrid.BuildParamCombinations | src/standard_tools/backtest/walk_forward.cpp:14-50 | Returns all combinations in order, and fails exactly when the product of the list lengths exceeds 10000 |
| ParameterGrid.ProductIsCartesian | src/standard_tools/backtest/walk_forward.cpp:27-41 | A parameter set is produced if and only if it picks one value from every axis that has values, and nothing else |
| ParameterGrid.ProductSize | src/standard_tools/backtest/walk_forward.cpp:27-41 | There are as many combinations as the product of the non-empty list lengths |
| ParameterGrid.ProductDistinct | src/standard_tools/backtest/walk_forward.cpp:27-41 | No combination is produced twice |
| WalkForward.Optimize | src/standard_tools/backtest/walk_forward.cpp:64-94 | The loop makes the choice described by the next row |
| WalkForward.ChosenIsFirstBest | src/standard_tools/backtest/walk_forward.cpp:64-94 | The choice is the first combination of maximal score among those that run; it fails exactly when none runs |
| WalkForward.RunWalkForward | src/standard_tools/backtest/walk_forward.cpp:192-243 | Rejections in order, then the first failing window's error, or the joined result of all windows; the Training rows say what the windows are |
| Training.SelectedOnTrainingBars | src/standard_tools/backtest/walk_forward.cpp:222-240 | The parameters reported for a window are the first best, under the chosen metric, on the training bars right before it; they are dated by its first test bar and are what its test bars are run with |
| Training.TrainingDecides | src/standard_tools/backtest/walk_forward.cpp:222-240 | Two runs whose series agree on the training bars of a window select the same parameters there, whatever the test bars |
| WalkForward.RunSucceedsExactly | src/standard_tools/backtest/walk_forward.cpp:222-240 | Its windows succeed if and only if the strategy accepts some combination |
| WalkForward.SplitsTile | src/standard_tools/backtest/walk_forward.cpp:222-240 | Window w trains on the bars right before its test bars, at a fixed stride |
| WalkForward.SplitsFill | src/standard_tools/backtest/walk_forward.cpp:222-240 | Fewer bars than one test window are left over |
| WalkForward.TestsAreContiguous | src/standard_tools/backtest/walk_forward.cpp:222-240 | The test windows end to end are one stretch of the series that starts at the training size |
| WalkForward.WalkForwardCompounds | src/standard_tools/backtest/walk_forward.cpp:96-188 | One point per test bar, no jump between windows, total return is the compounded window returns, and scaled profits explain the final equity |
| WalkForward.RunnerKeepsAccounts | src/standard_tools/backtest/walk_forward.cpp:233-237 | The backtest engine satisfies what the compounding theorem asks of an engine |
| WalkForward.WalkForwardCausal | src/standard_tools/backtest/walk_forward.cpp:222-240 | Later bars only add windows: earlier ones keep their parameters and results |
| Stitching.ScaleWindows | src/standard_tools/backtest/walk_forward.cpp:104-137 | The loop scales each window by the capital carried into it |
| Stitching.Sort | src/standard_tools/backtest/walk_forward.cpp:139-143 | Some arrangement of the same points by date |
| Stitching.DeduplicatedStrict | src/standard_tools/backtest/walk_forward.cpp:144-148 | After sorting and deduplicating, dates strictly increase |
| Stitching.DeduplicatedCovers | src/standard_tools/backtest/walk_forward.cpp:144-148 | No date is lost and no point is invented |
| Stitching.CombineResults | src/standard_tools/backtest/walk_forward.cpp:96-188 | The joined curve, trades and their statistics; fails exactly without windows |
| Ledger.JoinedMeasures | src/standard_tools/backtest/walk_forward.cpp:149-188 | The win rate, trade count, total return and drawdown of a joined run are those of its own curve and trades |
| Stitching.CapitalCompounds | src/standard_tools/backtest/walk_forward.cpp:108-137 | Capital carried into a window is initial capital times the growth so far |
| Stitching.ProfitsAddUp | src/standard_tools/backtest/walk_forward.cpp:125-136 | Scaled profits add up to the growth of the stitched account |
| Stitching.CombinedCompounds | src/standard_tools/backtest/walk_forward.cpp:139-166 | With increasing dates no point is dropped, returns compound and money is conserved |
| RiskReturn.ValidatePrices | src/standard_tools/metrics/risk_return.cpp:145-159 | Accepts exactly two or more positive prices |
| RiskReturn.Telescopes | src/standard_tools/metrics/risk_return.cpp:20-35 | Compounding the returns of a price series gives the ratio of its prices |
| RiskReturn.CumulativeIsEndToEnd | src/standard_tools/metrics/risk_return.cpp:29-35 | Cumulative return depends on the first and last price only |
| RiskReturn.MaxDrawdownOfReturns | src/standard_tools/metrics/risk_return.cpp:89-104 | The loop computes the drawdown of the compounded path |
| RiskReturn.DrawdownIsWorstFall | src/standard_tools/metrics/risk_return.cpp:89-104 | It is minus the worst fall between any two prices and lies in (-1, 0] |
| RiskReturn.HistoricalVaR | src/standard_tools/metrics/risk_return.cpp:106-116 | The value with at most k returns below it and more than k at most it |
| RiskReturn.HistoricalCVaR | src/standard_tools/metrics/risk_return.cpp:118-135 | The mean of the returns up to the value at risk; defined whenever there are returns and never above it |
| RiskReturn.TailSplits | src/standard_tools/metrics/risk_return.cpp:118-135 | The tail and the returns above it add up to all of them, and each is empty when the other holds everything |
| RiskReturn.CalculateRisk | src/standard_tools/metrics/risk_return.cpp:178-196 | All of these for one price series, with its two errors |
| Arrangements.OrderStatisticUnique | src/standard_tools/metrics/risk_return.cpp:110-115 | That description leaves only one value |
| Arrangements.QuantileNearest | src/standard_tools/backtest/monte_carlo.cpp:43-52 | The place of a quantile is the nearest one to that share of the way from first to last |
| MonteCarlo.SimulatePath | src/standard_tools/backtest/monte_carlo.cpp:22-39 | Final equity and drawdown of one ordering of the returns |
| MonteCarlo.Percentile | src/standard_tools/backtest/monte_carlo.cpp:43-52 | The rounded position is always in bounds |
| MonteCarlo.CompoundArranged | src/standard_tools/backtest/monte_carlo.cpp:96-102 | Final equity does not depend on the order of the returns |
| MonteCarlo.Simulator.constructor | src/standard_tools/backtest/monte_carlo.cpp:57-63 | Keeps the requested number of simulations, cut to between 0 and 100000 |
| MonteCarlo.Simulator.FromReturns | src/standard_tools/backtest/monte_carlo.cpp:80-118 | The equity interval is the single compounded value; the drawdown interval holds two order statistics, ordered and never positive |
| MonteCarlo.Simulator.FromTrades | src/standard_tools/backtest/monte_carlo.cpp:65-78 | The same in full for trade returns, a trade without cost counting as zero |
| Ledger.ResamplingKeepsFinalEquity | src/standard_tools/backtest/monte_carlo.cpp:65-118 | Without commission, resampling the trades of a backtest reports its own final equity |
| MonteCarlo.SimulatedDrawdown | src/standard_tools/backtest/monte_carlo.cpp:22-39 | While no return loses everything, a simulated drawdown is the worst fall along its path and never total |
| AuditRecord.JsonDecides | src/standard_tools/audit/record.hpp:36-53 | Two records serialise alike if and only if they agree in every field, the moment only up to its day |
| AuditRecord.HashCovers | src/standard_tools/audit/record.cpp:39-43 | Records with equal hashes agree on everything but the hash field and the time of day, or exhibit a collision |
| AuditRecord.VerifyRecords | src/standard_tools/audit/verifier.cpp:11-28 | Passes exactly the valid chains; otherwise reports the first fault in the order of the checks |
| AuditRecord.FaultMeans | src/standard_tools/audit/verifier.cpp:11-28 | The reported fault names the first faulty record by its request id and says what alone is wrong with it |
| AuditRecord.TipPinsHistory | src/standard_tools/audit/verifier.cpp:11-28 | Of two valid chains with the same last hash the shorter is the end of the longer, field by field up to the day, or two colliding values are at hand |
| AuditLog.MemoryStorage.Append | src/standard_tools/audit/storage.cpp:5-8 | Adds one record at the end and changes nothing else |
| AuditLog.MemoryStorage.Latest | src/standard_tools/audit/storage.cpp:10-16 | The last record, or not found when empty |
| AuditLog.MemoryStorage.GetByRequestID | src/standard_tools/audit/storage.cpp:18-26 | The last record with that id, or not found exactly when there is none |
| AuditLog.Writer.Write | src/standard_tools/audit/writer.cpp:20-46 | Appends the dated, linked and sealed record, and a valid chain stays valid |
| AuditLog.Verifier.VerifyChain | src/standard_tools/audit/verifier.cpp:11-28 | Passes exactly when the store holds a valid chain |
| AuditLog.WriteKeepsChainExactly | src/standard_tools/audit/writer.cpp:27-34 | A write keeps a valid chain valid if and only if there is nothing before it, or the previous hash is not empty, or the caller left the link empty |
| AuditLog.WriteKeepsContent | src/standard_tools/audit/writer.cpp:20-46 | A write alters only the date, which becomes the clock reading when unset, the link and the three hashes |
| AuditRuns.RunsAreSequential | src/standard_tools/audit/writer.cpp:20-46 | In every interleaving of locked writes the store is what some order of whole writes would have left |
| AuditRuns.EveryStoreVerifies | src/standard_tools/audit/writer.cpp:20-46 | So it passes verification at every moment of every run |
| AuditRuns.StoreOnlyGrows | src/standard_tools/audit/storage.cpp:5-8 | Nothing stored is ever changed or removed |
| AuditRuns.UnserializedWritesFork | src/standard_tools/audit/writer.cpp:20-46 | Two writes that both read before either appends, from an empty store or not, keep the chain valid if and only if the first record hashes like the one the second names |

## Left out

- BlackLitterman.Optimise: outside the ordinary range it does not say when an inversion must fail, only what is true of the input when it does, because the pivot test is not a property of the matrix alone.
- Inverse.MatInverse: refuses every singular matrix and only near-singular ones; of those in between it does not say which, for the same reason.
- Jacobi.JacobiEigen: does not claim convergence within 100 sweeps; it states what holds at every exit.
- RiskParity.Iterate: does not claim convergence within 1000 iterations; it states what holds at every exit.
- RiskReturn.CalculateRisk: does not model CAGR, annualised volatility, Sharpe, Sortino and Calmar ratios, which rest on pow and annualisation.
- Backtest.Run: requires that one plus the commission rate is not zero, where the source divides by zero and carries infinities.
- MonteCarlo.Simulator.FromReturns: takes the shuffled orders as a parameter and assumes only that each is a permutation; random numbers and seeds are not modelled.
- AuditLog.Writer.Write: the clock reading is a parameter; the mutex is the subject of AuditRuns.
- Floating-point rounding, NaN and infinity: numbers are exact reals, so finiteness tests disappear.
- Sorting is modelled by insertion: any arrangement by date or eigenvalue satisfies the contracts, so ties are not pinned down.
- The matrix rows of the inversion and the rotations are sequences held in an array; entry-level aliasing within a row is not modelled.
- The portfolio files repeat the same helpers; one model of them, in Covariance and MeanVariance, serves all three.
- Result validation runs over the weights in label order rather than in hash-map order.
- The parameter grid and the views are listed in the iteration order of their maps.
- Principal component labels, custom strategies passed as objects, and the sizes of volume counters and indices.
- Regression, correlation, cointegration, Hurst exponent and option pricing in the analysis calculator.
- PostgreSQL storage, SHA-256, JSON text and the date format behind the hashes: hashing and formatting are uninterpreted functions.
- REST, A2A, MCP and gRPC endpoints, authentication, configuration, the command line, the dispatcher, market data and the screener.
